/** The buffered store as a timed machine over all tags: calls at any time, and timers that
    call StoreFlows when they are due. One timer, registered under an arbitrary tag, serves
    every tag that a call resets. Calls take no time; any write may fail. */
module FlushTimers {
  import opened Wrappers
  import opened ObjectStoreSpec
  import opened ObjectStoreRuns

  datatype Timer = Timer(deadline: int, running: bool)

  datatype Store<F> = Store(tags: map<string, TagState<F>>, timers: map<string, Timer>)
  {
    function At(t: string): TagState<F> { if t in tags then tags[t] else Emptied() }
  }

  function Incoming<F>(fl: map<string, seq<F>>, t: string): seq<F> {
    if t in fl then fl[t] else []
  }

  /** The writes of a tag before its first failure; a tag without a limit has no failure. */
  function LimitOf(limits: map<string, nat>, t: string): Option<nat> {
    if t in limits then Some(limits[t]) else None
  }

  /** What a call does to one tag. */
  function TagAfter<F>(cfg: Config, st: Store<F>, fl: map<string, seq<F>>, now: int,
                       limits: map<string, nat>, t: string): Progress<F>
    requires cfg.Sane()
  {
    StoreTag(cfg, st.At(t), Incoming(fl, t), now, LimitOf(limits, t))
  }

  /** The tags whose timer is stopped: those first seen in this call and those flushed. */
  function Resets<F>(cfg: Config, st: Store<F>, fl: map<string, seq<F>>, now: int,
                     limits: map<string, nat>): set<string>
    requires cfg.Sane()
  {
    set t | t in st.tags.Keys + fl.Keys &&
      (st.At(t).lastFlush.None? || Flushes(cfg, st.At(t), Incoming(fl, t), now, LimitOf(limits, t)))
  }

  function Stopped(timers: map<string, Timer>, resets: set<string>): map<string, Timer> {
    map t | t in timers :: if t in resets then timers[t].(running := false) else timers[t]
  }

  /** `r` is the tag under which Go's map iteration happens to register the new timer. */
  function Restarted(cfg: Config, timers: map<string, Timer>, resets: set<string>, now: int, r: string)
    : map<string, Timer>
  {
    if cfg.ObjectDuration() > 0 && resets != {}
    then Stopped(timers, resets)[r := Timer(now + cfg.ObjectDuration(), true)]
    else Stopped(timers, resets)
  }

  function CallTags<F>(cfg: Config, st: Store<F>, fl: map<string, seq<F>>, now: int,
                       limits: map<string, nat>): map<string, TagState<F>>
    requires cfg.Sane()
  {
    map t | t in st.tags.Keys + fl.Keys :: TagAfter(cfg, st, fl, now, limits, t).state
  }

  function StoreCall<F>(cfg: Config, st: Store<F>, fl: map<string, seq<F>>, now: int,
                        limits: map<string, nat>, r: string): Store<F>
    requires cfg.Sane()
  {
    Store(CallTags(cfg, st, fl, now, limits),
          Restarted(cfg, st.timers, Resets(cfg, st, fl, now, limits), now, r))
  }

  // ----- the machine

  datatype System<F> = System(store: Store<F>, clock: int)

  datatype Event<F> =
    | Call(fl: map<string, seq<F>>, now: int, limits: map<string, nat>, r: string)
    | Fire(timer: string, limits: map<string, nat>, r: string)

  /** No timer that still runs was due before `now`. */
  predicate NotOverdue(timers: map<string, Timer>, now: int) {
    forall k | k in timers && timers[k].running :: now <= timers[k].deadline
  }

  /** The new timer is registered under one of the reset tags. */
  predicate Registers<F>(cfg: Config, st: Store<F>, fl: map<string, seq<F>>, now: int, limits: map<string, nat>,
                         r: string)
    requires cfg.Sane()
  {
    var resets := Resets(cfg, st, fl, now, limits);
    resets != {} ==> r in resets
  }

  function Fired<F>(st: Store<F>, k: string): Store<F>
    requires k in st.timers
  {
    st.(timers := st.timers[k := st.timers[k].(running := false)])
  }

  /** A timer that fires calls the store without flows, at its deadline. */
  function CallOf<F>(s: System<F>, e: Event<F>): Event<F> {
    match e
    case Call(_, _, _, _) => e
    case Fire(k, limits, r) =>
      Call(map[], if k in s.store.timers then s.store.timers[k].deadline else s.clock, limits, r)
  }

  function StoreOf<F>(s: System<F>, e: Event<F>): Store<F> {
    if e.Fire? && e.timer in s.store.timers then Fired(s.store, e.timer) else s.store
  }

  predicate Possible<F>(cfg: Config, s: System<F>, e: Event<F>)
    requires cfg.Sane()
  {
    var c := CallOf(s, e);
    && s.clock <= c.now && NotOverdue(s.store.timers, c.now)
    && (e.Fire? ==> e.timer in s.store.timers && s.store.timers[e.timer].running)
    && Registers(cfg, StoreOf(s, e), c.fl, c.now, c.limits, c.r)
  }

  function Happen<F>(cfg: Config, s: System<F>, e: Event<F>): System<F>
    requires cfg.Sane()
  {
    var c := CallOf(s, e);
    System(StoreCall(cfg, StoreOf(s, e), c.fl, c.now, c.limits, c.r), c.now)
  }

  function Start<F>(clock: int): System<F> {
    System(Store(map[], map[]), clock)
  }

  /** The system after a sequence of events; None if one is not possible when it is to happen. */
  function Reach<F>(cfg: Config, clock: int, events: seq<Event<F>>): Option<System<F>>
    requires cfg.Sane()
  {
    if events == [] then Some(Start(clock))
    else
      var s := Reach(cfg, clock, Front(events));
      if s.Some? && Possible(cfg, s.value, Last(events)) then Some(Happen(cfg, s.value, Last(events))) else None
  }

  // ----- the invariant

  /** A running timer is due at least one and less than two durations after the last flush. */
  predicate CoveredBy(cfg: Config, timers: map<string, Timer>, k: string, flushed: int) {
    && k in timers && timers[k].running
    && flushed + cfg.ObjectDuration() <= timers[k].deadline < flushed + 2 * cfg.ObjectDuration()
  }

  predicate Covered(cfg: Config, timers: map<string, Timer>, flushed: int) {
    exists k | k in timers :: CoveredBy(cfg, timers, k, flushed)
  }

  /** A tag after a call: its queue is empty and its duration has passed, or a timer covers it;
      and a tag whose duration has passed has an empty queue. */
  predicate TagServed<F>(cfg: Config, timers: map<string, Timer>, clock: int, s: TagState<F>) {
    && s.lastFlush.Some? && s.lastFlush.value <= clock
    && (clock >= s.lastFlush.value + cfg.ObjectDuration() ==> s.flows == [])
    && (clock < s.lastFlush.value + cfg.ObjectDuration() ==> Covered(cfg, timers, s.lastFlush.value))
  }

  predicate Served<F>(cfg: Config, s: System<F>) {
    && NotOverdue(s.store.timers, s.clock)
    && forall t | t in s.store.tags :: TagServed(cfg, s.store.timers, s.clock, s.store.tags[t])
  }

  /** What a call needs: every tag is covered or will be looked at in time. */
  predicate Servable<F>(cfg: Config, st: Store<F>, now: int) {
    && NotOverdue(st.timers, now)
    && forall t | t in st.tags ::
      && st.tags[t].lastFlush.Some? && st.tags[t].lastFlush.value <= now
      && (now < st.tags[t].lastFlush.value + cfg.ObjectDuration() ==>
          Covered(cfg, st.timers, st.tags[t].lastFlush.value))
  }

  // ----- the promise, for one tag

  /** The tag has a running timer to come, and its duration has not passed twice. */
  predicate DueInTime<F>(cfg: Config, timers: map<string, Timer>, s: TagState<F>, moment: int) {
    && s.lastFlush.Some? && moment < s.lastFlush.value + 2 * cfg.ObjectDuration()
    && exists k | k in timers :: timers[k].running && moment <= timers[k].deadline
  }

  /** A queue is in time if this holds at every later moment up to which no timer is overdue. */
  ghost predicate InTime<F>(cfg: Config, timers: map<string, Timer>, clock: int, s: TagState<F>) {
    s.flows != [] ==> forall moment | clock <= moment && NotOverdue(timers, moment) :: DueInTime(cfg, timers, s, moment)
  }

  /** Some running timer is due less than two durations after the last flush. */
  predicate Timely(cfg: Config, timers: map<string, Timer>, flushed: int) {
    exists k | k in timers :: timers[k].running && timers[k].deadline < flushed + 2 * cfg.ObjectDuration()
  }

  lemma InTimeIff<F>(cfg: Config, timers: map<string, Timer>, clock: int, s: TagState<F>)
    requires NotOverdue(timers, clock) && s.lastFlush.Some?
    ensures InTime(cfg, timers, clock, s) <==> s.flows == [] || Timely(cfg, timers, s.lastFlush.value)
  {
    var end := s.lastFlush.value + 2 * cfg.ObjectDuration();
    if Timely(cfg, timers, s.lastFlush.value) {
      var k :| k in timers && timers[k].running && timers[k].deadline < end;
    } else {
      var moment := if clock < end then end else clock;
      assert NotOverdue(timers, moment) && !DueInTime(cfg, timers, s, moment);
    }
  }

  // ----- exactly when a call keeps every tag served

  /** The first write of a queue that is due by the clock fails, and the queue may keep flows. */
  predicate Stalls<F>(cfg: Config, s: TagState<F>, incoming: seq<F>, now: int, limit: Option<nat>) {
    && s.lastFlush.Some? && now - s.lastFlush.value >= cfg.ObjectDuration()
    && s.flows + incoming != [] && limit == Some(0) && cfg.maxFlowArraySize > 0
  }

  predicate StallsNone<F>(cfg: Config, st: Store<F>, fl: map<string, seq<F>>, now: int, limits: map<string, nat>) {
    forall t | t in st.tags.Keys + fl.Keys :: !Stalls(cfg, st.At(t), Incoming(fl, t), now, LimitOf(limits, t))
  }

  lemma TagCalled<F>(cfg: Config, s: TagState<F>, incoming: seq<F>, now: int, limit: Option<nat>)
    requires cfg.Sane() && cfg.maxSecondsPerObject > 0
    requires s.lastFlush.Some? ==> s.lastFlush.value <= now
    ensures
      var s' := StoreTag(cfg, s, incoming, now, limit).state;
      && s'.lastFlush.Some?
      && s'.lastFlush.value ==
         (if s.lastFlush.None? || Flushes(cfg, s, incoming, now, limit) then now else s.lastFlush.value)
      && (now >= s'.lastFlush.value + cfg.ObjectDuration() && s'.flows != [] <==> Stalls(cfg, s, incoming, now, limit))
  {
    QueueBounded(cfg, s, incoming, now, limit);
    FlushTime(cfg, Sighted(s, incoming, now), now, limit);
  }

  /** The loop sets the flush time exactly when it writes. */
  lemma {:induction false} FlushTime<F>(cfg: Config, s: TagState<F>, now: int, limit: Option<nat>)
    requires cfg.Sane() && s.lastFlush.Some?
    ensures
      var p := FlushLoop(cfg, s, now, limit);
      && p.state.lastFlush == (if MustFlush(cfg, s, now) && limit != Some(0) then Some(now) else s.lastFlush)
      && (p.trace != [] <==> MustFlush(cfg, s, now) && limit != Some(0))
    decreases |s.flows|
  {
    if MustFlush(cfg, s, now) && limit != Some(0) {
      FlushTime(cfg, AfterFlush(cfg, s, now), now, Fewer(limit));
    }
  }

  /** A cover survives a call, or is replaced by the timer that the call starts. */
  lemma CoverSurvives(cfg: Config, timers: map<string, Timer>, resets: set<string>, now: int, r: string, flushed: int)
    requires cfg.maxSecondsPerObject > 0 && (resets != {} ==> r in resets)
    requires flushed <= now < flushed + cfg.ObjectDuration()
    requires Covered(cfg, timers, flushed) || (flushed == now && resets != {})
    ensures Covered(cfg, Restarted(cfg, timers, resets, now, r), flushed)
  {
    var timers' := Restarted(cfg, timers, resets, now, r);
    if resets != {} {
      assert CoveredBy(cfg, timers', r, flushed);
    } else {
      var k :| k in timers && CoveredBy(cfg, timers, k, flushed);
      assert Stopped(timers, resets) == timers;
      assert CoveredBy(cfg, timers', k, flushed);
    }
  }

  /** Whatever fails, a tag whose duration has not passed is covered after the call. */
  lemma TagStaysCovered<F>(cfg: Config, st: Store<F>, fl: map<string, seq<F>>, now: int, limits: map<string, nat>,
                           r: string, t: string)
    requires cfg.Sane() && cfg.maxSecondsPerObject > 0 && Servable(cfg, st, now)
    requires Registers(cfg, st, fl, now, limits, r) && t in st.tags.Keys + fl.Keys
    ensures
      var st', resets := StoreCall(cfg, st, fl, now, limits, r), Resets(cfg, st, fl, now, limits);
      && st'.tags[t].lastFlush.Some? && st'.tags[t].lastFlush.value <= now
      && (t in resets ==> st'.tags[t].lastFlush.value == now)
      && (t !in resets ==> t in st.tags && st'.tags[t].lastFlush == st.tags[t].lastFlush)
      && (now < st'.tags[t].lastFlush.value + cfg.ObjectDuration() ==>
          Covered(cfg, st'.timers, st'.tags[t].lastFlush.value))
  {
    var st' := StoreCall(cfg, st, fl, now, limits, r);
    TagCalled(cfg, st.At(t), Incoming(fl, t), now, LimitOf(limits, t));
    var flushed, resets := st'.tags[t].lastFlush.value, Resets(cfg, st, fl, now, limits);
    assert t in resets ==> flushed == now;
    assert t !in resets ==> t in st.tags && flushed == st.tags[t].lastFlush.value;
    if now < flushed + cfg.ObjectDuration() {
      CoverSurvives(cfg, st.timers, resets, now, r, flushed);
    }
  }

  lemma TagServedIff<F>(cfg: Config, st: Store<F>, fl: map<string, seq<F>>, now: int, limits: map<string, nat>,
                        r: string, t: string)
    requires cfg.Sane() && cfg.maxSecondsPerObject > 0 && Servable(cfg, st, now)
    requires Registers(cfg, st, fl, now, limits, r) && t in st.tags.Keys + fl.Keys
    ensures
      var st' := StoreCall(cfg, st, fl, now, limits, r);
      TagServed(cfg, st'.timers, now, st'.tags[t]) <==> !Stalls(cfg, st.At(t), Incoming(fl, t), now, LimitOf(limits, t))
  {
    TagCalled(cfg, st.At(t), Incoming(fl, t), now, LimitOf(limits, t));
    TagStaysCovered(cfg, st, fl, now, limits, r, t);
  }

  lemma NewNotOverdue(cfg: Config, timers: map<string, Timer>, resets: set<string>, now: int, r: string)
    requires NotOverdue(timers, now)
    ensures NotOverdue(Restarted(cfg, timers, resets, now, r), now)
  {
  }

  /** A call keeps every tag served, although it stops timers that other tags rely on, if and
      only if it stalls none of them. */
  lemma CallServesIff<F>(cfg: Config, st: Store<F>, fl: map<string, seq<F>>, now: int, limits: map<string, nat>,
                         r: string)
    requires cfg.Sane() && cfg.maxSecondsPerObject > 0 && Servable(cfg, st, now)
      && Registers(cfg, st, fl, now, limits, r)
    ensures Served(cfg, System(StoreCall(cfg, st, fl, now, limits, r), now)) <==> StallsNone(cfg, st, fl, now, limits)
  {
    var st' := StoreCall(cfg, st, fl, now, limits, r);
    NewNotOverdue(cfg, st.timers, Resets(cfg, st, fl, now, limits), now, r);
    forall t | t in st'.tags
      ensures TagServed(cfg, st'.timers, now, st'.tags[t])
              <==> !Stalls(cfg, st.At(t), Incoming(fl, t), now, LimitOf(limits, t))
    {
      TagServedIff(cfg, st, fl, now, limits, r, t);
    }
  }

  /** With successful writes a call keeps every tag served. */
  lemma CallServes<F>(cfg: Config, st: Store<F>, fl: map<string, seq<F>>, now: int, r: string)
    requires cfg.Sane() && cfg.maxSecondsPerObject > 0 && Servable(cfg, st, now)
      && Registers(cfg, st, fl, now, map[], r)
    ensures Served(cfg, System(StoreCall(cfg, st, fl, now, map[], r), now))
  {
    CallServesIff(cfg, st, fl, now, map[], r);
  }

  // ----- exactly when a call keeps every queue in time, and when it leaves one without a timer

  /** A running timer that the call does not stop is due in time for a flush at `flushed`. */
  predicate Rescued(cfg: Config, timers: map<string, Timer>, resets: set<string>, flushed: int) {
    exists k | k in timers ::
      timers[k].running && k !in resets && timers[k].deadline < flushed + 2 * cfg.ObjectDuration()
  }

  predicate StallsRescued<F>(cfg: Config, st: Store<F>, fl: map<string, seq<F>>, now: int, limits: map<string, nat>)
    requires cfg.Sane()
  {
    forall t | t in st.tags.Keys + fl.Keys && Stalls(cfg, st.At(t), Incoming(fl, t), now, LimitOf(limits, t)) ::
      Rescued(cfg, st.timers, Resets(cfg, st, fl, now, limits), st.At(t).lastFlush.value)
  }

  /** The timer that a call starts comes too late for a tag whose duration has passed. */
  lemma TimelyIffRescued(cfg: Config, timers: map<string, Timer>, resets: set<string>, now: int, r: string,
                         flushed: int)
    requires cfg.maxSecondsPerObject > 0 && (resets != {} ==> r in resets) && flushed + cfg.ObjectDuration() <= now
    ensures Timely(cfg, Restarted(cfg, timers, resets, now, r), flushed) <==> Rescued(cfg, timers, resets, flushed)
  {
    var timers', end := Restarted(cfg, timers, resets, now, r), flushed + 2 * cfg.ObjectDuration();
    if Rescued(cfg, timers, resets, flushed) {
      var k :| k in timers && timers[k].running && k !in resets && timers[k].deadline < end;
      assert timers'[k] == timers[k];
    }
    if Timely(cfg, timers', flushed) {
      var k :| k in timers' && timers'[k].running && timers'[k].deadline < end;
      assert k in timers && timers'[k] == timers[k] && k !in resets;
    }
  }

  lemma TagInTimeIff<F>(cfg: Config, st: Store<F>, fl: map<string, seq<F>>, now: int, limits: map<string, nat>,
                        r: string, t: string)
    requires cfg.Sane() && cfg.maxSecondsPerObject > 0 && Servable(cfg, st, now)
    requires Registers(cfg, st, fl, now, limits, r) && t in st.tags.Keys + fl.Keys
    ensures
      var st' := StoreCall(cfg, st, fl, now, limits, r);
      InTime(cfg, st'.timers, now, st'.tags[t]) <==>
        (Stalls(cfg, st.At(t), Incoming(fl, t), now, LimitOf(limits, t)) ==>
         Rescued(cfg, st.timers, Resets(cfg, st, fl, now, limits), st.At(t).lastFlush.value))
  {
    var st', resets := StoreCall(cfg, st, fl, now, limits, r), Resets(cfg, st, fl, now, limits);
    TagCalled(cfg, st.At(t), Incoming(fl, t), now, LimitOf(limits, t));
    TagStaysCovered(cfg, st, fl, now, limits, r, t);
    var flushed := st'.tags[t].lastFlush.value;
    InTimeIff(cfg, st'.timers, now, st'.tags[t]);
    if now < flushed + cfg.ObjectDuration() {
      var k :| k in st'.timers && CoveredBy(cfg, st'.timers, k, flushed);
      assert Timely(cfg, st'.timers, flushed);
    } else {
      TimelyIffRescued(cfg, st.timers, resets, now, r, flushed);
    }
  }

  /** After a call every queue is in time if and only if, for every tag that the call stalls,
      a running timer that it does not stop is due in time. */
  lemma CallInTimeIff<F>(cfg: Config, st: Store<F>, fl: map<string, seq<F>>, now: int, limits: map<string, nat>,
                         r: string)
    requires cfg.Sane() && cfg.maxSecondsPerObject > 0 && Servable(cfg, st, now)
      && Registers(cfg, st, fl, now, limits, r)
    ensures AllInTime(cfg, System(StoreCall(cfg, st, fl, now, limits, r), now))
      <==> StallsRescued(cfg, st, fl, now, limits)
  {
    var st' := StoreCall(cfg, st, fl, now, limits, r);
    forall t | t in st'.tags
      ensures InTime(cfg, st'.timers, now, st'.tags[t]) <==>
        (Stalls(cfg, st.At(t), Incoming(fl, t), now, LimitOf(limits, t)) ==>
         Rescued(cfg, st.timers, Resets(cfg, st, fl, now, limits), st.At(t).lastFlush.value))
    {
      TagInTimeIff(cfg, st, fl, now, limits, r, t);
    }
  }

  ghost predicate AllInTime<F>(cfg: Config, s: System<F>) {
    forall t | t in s.store.tags :: InTime(cfg, s.store.timers, s.clock, s.store.tags[t])
  }

  predicate NoneRuns(timers: map<string, Timer>) {
    forall k | k in timers :: !timers[k].running
  }

  /** Flows wait, and no timer runs that would have them looked at. */
  predicate Stranded<F>(st: Store<F>) {
    (exists t | t in st.tags :: st.tags[t].flows != []) && NoneRuns(st.timers)
  }

  /** A call leaves flows without any timer if and only if it stalls a tag, resets none, and no
      timer ran before it. */
  lemma CallStrandsIff<F>(cfg: Config, st: Store<F>, fl: map<string, seq<F>>, now: int, limits: map<string, nat>,
                          r: string)
    requires cfg.Sane() && cfg.maxSecondsPerObject > 0 && Servable(cfg, st, now)
      && Registers(cfg, st, fl, now, limits, r)
    ensures Stranded(StoreCall(cfg, st, fl, now, limits, r)) <==>
      !StallsNone(cfg, st, fl, now, limits) && Resets(cfg, st, fl, now, limits) == {} && NoneRuns(st.timers)
  {
    var st', resets := StoreCall(cfg, st, fl, now, limits, r), Resets(cfg, st, fl, now, limits);
    NoneRunsIff(cfg, st.timers, resets, now, r);
    if Stranded(st') {
      var t :| t in st'.tags && st'.tags[t].flows != [];
      TagServedIff(cfg, st, fl, now, limits, r, t);
    }
    if !StallsNone(cfg, st, fl, now, limits) {
      var t :| t in st.tags.Keys + fl.Keys && Stalls(cfg, st.At(t), Incoming(fl, t), now, LimitOf(limits, t));
      TagCalled(cfg, st.At(t), Incoming(fl, t), now, LimitOf(limits, t));
      assert t in st'.tags && st'.tags[t].flows != [];
    }
  }

  lemma NoneRunsIff(cfg: Config, timers: map<string, Timer>, resets: set<string>, now: int, r: string)
    requires cfg.maxSecondsPerObject > 0
    ensures NoneRuns(Restarted(cfg, timers, resets, now, r)) <==> resets == {} && NoneRuns(timers)
  {
    var timers' := Restarted(cfg, timers, resets, now, r);
    if resets != {} {
      assert timers'[r].running;
    } else {
      assert timers' == timers;
    }
  }

  // ----- whole runs

  lemma CoverWithout(cfg: Config, timers: map<string, Timer>, k: string, flushed: int)
    requires k in timers && Covered(cfg, timers, flushed) && timers[k].deadline < flushed + cfg.ObjectDuration()
    ensures Covered(cfg, timers[k := timers[k].(running := false)], flushed)
  {
    var c :| c in timers && CoveredBy(cfg, timers, c, flushed);
    assert CoveredBy(cfg, timers[k := timers[k].(running := false)], c, flushed);
  }

  /** Before a call, also one that a timer makes, every tag is covered or looked at in time. */
  lemma ServableBefore<F>(cfg: Config, s: System<F>, e: Event<F>)
    requires cfg.Sane() && cfg.maxSecondsPerObject > 0 && Servable(cfg, s.store, s.clock) && Possible(cfg, s, e)
    ensures Servable(cfg, StoreOf(s, e), CallOf(s, e).now)
  {
    var now, st := CallOf(s, e).now, StoreOf(s, e);
    forall t | t in st.tags
      ensures now < st.tags[t].lastFlush.value + cfg.ObjectDuration() ==>
        Covered(cfg, st.timers, st.tags[t].lastFlush.value)
    {
      if e.Fire? && now < st.tags[t].lastFlush.value + cfg.ObjectDuration() {
        CoverWithout(cfg, s.store.timers, e.timer, st.tags[t].lastFlush.value);
      }
    }
  }

  lemma CallKeepsServable<F>(cfg: Config, st: Store<F>, fl: map<string, seq<F>>, now: int, limits: map<string, nat>,
                             r: string)
    requires cfg.Sane() && cfg.maxSecondsPerObject > 0 && Servable(cfg, st, now)
      && Registers(cfg, st, fl, now, limits, r)
    ensures Servable(cfg, StoreCall(cfg, st, fl, now, limits, r), now)
  {
    var st' := StoreCall(cfg, st, fl, now, limits, r);
    NewNotOverdue(cfg, st.timers, Resets(cfg, st, fl, now, limits), now, r);
    forall t | t in st'.tags
      ensures st'.tags[t].lastFlush.Some? && st'.tags[t].lastFlush.value <= now
      ensures now < st'.tags[t].lastFlush.value + cfg.ObjectDuration() ==>
        Covered(cfg, st'.timers, st'.tags[t].lastFlush.value)
    {
      TagStaysCovered(cfg, st, fl, now, limits, r, t);
    }
  }

  /** Every reachable system can be served, whatever writes have failed before. */
  lemma {:induction false} ReachedIsServable<F>(cfg: Config, clock: int, events: seq<Event<F>>)
    requires cfg.Sane() && cfg.maxSecondsPerObject > 0 && Reach(cfg, clock, events).Some?
    ensures Servable(cfg, Reach(cfg, clock, events).value.store, Reach(cfg, clock, events).value.clock)
  {
    if events != [] {
      var s, e := Reach(cfg, clock, Front(events)).value, Last(events);
      ReachedIsServable(cfg, clock, Front(events));
      ServableBefore(cfg, s, e);
      var c := CallOf(s, e);
      CallKeepsServable(cfg, StoreOf(s, e), c.fl, c.now, c.limits, c.r);
    }
  }

  predicate EventStallsNone<F>(cfg: Config, s: System<F>, e: Event<F>) {
    var c := CallOf(s, e);
    StallsNone(cfg, StoreOf(s, e), c.fl, c.now, c.limits)
  }

  predicate EventRescues<F>(cfg: Config, s: System<F>, e: Event<F>)
    requires cfg.Sane()
  {
    var c := CallOf(s, e);
    StallsRescued(cfg, StoreOf(s, e), c.fl, c.now, c.limits)
  }

  predicate EventStrands<F>(cfg: Config, s: System<F>, e: Event<F>)
    requires cfg.Sane()
  {
    var c, st := CallOf(s, e), StoreOf(s, e);
    && !StallsNone(cfg, st, c.fl, c.now, c.limits)
    && Resets(cfg, st, c.fl, c.now, c.limits) == {} && NoneRuns(st.timers)
  }

  /** In every run the latest event alone decides, whatever has failed before: after it every
      tag is served if and only if it stalls none, so that a stall heals at the next event that
      stalls none; every queue is in time if and only if it stalls none that no other timer
      rescues; and flows are left without a timer if and only if it stalls some, resets none and
      finds no running timer. */
  lemma LatestEventDecides<F>(cfg: Config, clock: int, events: seq<Event<F>>)
    requires cfg.Sane() && cfg.maxSecondsPerObject > 0 && events != [] && Reach(cfg, clock, events).Some?
    ensures
      var s, s', e := Reach(cfg, clock, Front(events)).value, Reach(cfg, clock, events).value, Last(events);
      && (Served(cfg, s') <==> EventStallsNone(cfg, s, e))
      && (AllInTime(cfg, s') <==> EventRescues(cfg, s, e))
      && (Stranded(s'.store) <==> EventStrands(cfg, s, e))
  {
    var s, e := Reach(cfg, clock, Front(events)).value, Last(events);
    ReachedIsServable(cfg, clock, Front(events));
    ServableBefore(cfg, s, e);
    var c, st := CallOf(s, e), StoreOf(s, e);
    CallServesIff(cfg, st, c.fl, c.now, c.limits, c.r);
    CallInTimeIff(cfg, st, c.fl, c.now, c.limits, c.r);
    CallStrandsIff(cfg, st, c.fl, c.now, c.limits, c.r);
  }

  /** Successful writes stall nothing. */
  lemma SuccessStallsNone<F>(cfg: Config, s: System<F>, e: Event<F>)
    requires cfg.Sane() && e.limits == map[]
    ensures EventStallsNone(cfg, s, e) && EventRescues(cfg, s, e)
  {
  }

  lemma InTimeSays<F>(cfg: Config, timers: map<string, Timer>, clock: int, s: TagState<F>, moment: int)
    requires InTime(cfg, timers, clock, s) && s.flows != [] && clock <= moment && NotOverdue(timers, moment)
    ensures s.lastFlush.Some? && moment < s.lastFlush.value + 2 * SECOND * cfg.maxSecondsPerObject
    ensures exists k :: k in timers && timers[k].running && moment <= timers[k].deadline
  {
    assert DueInTime(cfg, timers, s, moment);
  }

  /** In every reachable system whose latest event stalls no tag that no other timer rescues, an
      event with successful writes in particular, and at every later moment up to which no
      running timer is overdue: a tag with a queue has a running timer that is still to come, and
      less than two object durations have passed since its last flush. */
  lemma QueuesAreServedInTime<F>(cfg: Config, clock: int, events: seq<Event<F>>, moment: int, t: string)
    requires cfg.Sane() && cfg.maxSecondsPerObject > 0 && events != [] && Reach(cfg, clock, events).Some?
    requires Last(events).limits == map[] || EventRescues(cfg, Reach(cfg, clock, Front(events)).value, Last(events))
    requires
      var s := Reach(cfg, clock, events).value;
      s.clock <= moment && NotOverdue(s.store.timers, moment) && t in s.store.tags && s.store.tags[t].flows != []
    ensures
      var s := Reach(cfg, clock, events).value;
      && s.store.tags[t].lastFlush.Some?
      && moment < s.store.tags[t].lastFlush.value + 2 * SECOND * cfg.maxSecondsPerObject
      && exists k :: k in s.store.timers && s.store.timers[k].running && moment <= s.store.timers[k].deadline
  {
    var s, s' := Reach(cfg, clock, Front(events)).value, Reach(cfg, clock, events).value;
    if Last(events).limits == map[] { SuccessStallsNone(cfg, s, Last(events)); }
    LatestEventDecides(cfg, clock, events);
    InTimeSays(cfg, s'.store.timers, s'.clock, s'.store.tags[t], moment);
  }

  /** Without an object duration no timer is ever started: every call writes what it can. */
  lemma {:induction false} NoDurationNoTimer<F>(cfg: Config, clock: int, events: seq<Event<F>>)
    requires cfg.Sane() && cfg.maxSecondsPerObject <= 0 && Reach(cfg, clock, events).Some?
    ensures Reach(cfg, clock, events).value.store.timers == map[]
  {
    if events != [] {
      NoDurationNoTimer(cfg, clock, Front(events));
      var s, e := Reach(cfg, clock, Front(events)).value, Last(events);
      var c := CallOf(s, e);
      assert Stopped(map[], Resets(cfg, s.store, c.fl, c.now, c.limits)) == map[];
    }
  }

  // ----- a stall

  /** One tag with a queue below the size of an object. */
  function Waiting<F>(cfg: Config, t: string, fl: seq<F>, now: int): System<F> {
    System(Store(map[t := TagState(fl, Some(now), None)], map[t := Timer(now + cfg.ObjectDuration(), true)]), now)
  }

  /** The same queue when its timer has fired. */
  function Stalled<F>(cfg: Config, t: string, fl: seq<F>, now: int): System<F> {
    var due := now + cfg.ObjectDuration();
    System(Store(map[t := TagState(fl, Some(now), None)], map[t := Timer(due, false)]), due)
  }

  predicate SmallQueue<F>(cfg: Config, fl: seq<F>) {
    cfg.Sane() && cfg.maxSecondsPerObject > 0 && 0 < |fl| < cfg.maxFlowsPerObject && |fl| <= cfg.maxFlowArraySize
  }

  lemma FirstCallWaits<F>(cfg: Config, t: string, fl: seq<F>, now: int)
    requires SmallQueue(cfg, fl)
    ensures
      var e := Call(map[t := fl], now, map[], t);
      Possible(cfg, Start(now), e) && Happen(cfg, Start(now), e) == Waiting(cfg, t, fl, now)
  {
    var st, c := Start<F>(now).store, map[t := fl];
    assert Sighted(Emptied(), fl, now) == TagState(fl, Some(now), None);
    assert TagAfter(cfg, st, c, now, map[], t).state == TagState(fl, Some(now), None);
    assert Resets(cfg, st, c, now, map[]) == {t};
    assert CallTags(cfg, st, c, now, map[]) == map[t := TagState(fl, Some(now), None)];
    assert Restarted(cfg, map[], {t}, now, t) == map[t := Timer(now + cfg.ObjectDuration(), true)];
  }

  lemma FailedFireStops<F>(cfg: Config, t: string, fl: seq<F>, now: int)
    requires SmallQueue(cfg, fl)
    ensures
      var s, e := Waiting(cfg, t, fl, now), Fire(t, map[t := 0], t);
      && Possible(cfg, s, e) && Happen(cfg, s, e) == Stalled(cfg, t, fl, now)
  {
    var s, due, none := Waiting(cfg, t, fl, now), now + cfg.ObjectDuration(), map[t := 0];
    var st := Fired(s.store, t);
    assert Sighted(st.tags[t], [], due) == st.tags[t] by { assert fl + [] == fl; }
    assert TagAfter(cfg, st, map[], due, none, t).state == st.tags[t];
    assert LimitOf(none, t) == Some(0);
    assert Resets(cfg, st, map[], due, none) == {};
    assert CallTags(cfg, st, map[], due, none) == st.tags;
    assert Restarted(cfg, st.timers, {}, due, t) == map[t := Timer(due, false)];
    assert Stalls(cfg, st.At(t), Incoming(map[], t), due, LimitOf(none, t));
  }

  /** A stall does happen: some flows arrive, too few for an object; when their only timer
      fires the write fails, the queue stays as it is and no timer runs any more. */
  lemma FailedFireStalls<F>(cfg: Config, t: string, fl: seq<F>, now: int)
    requires SmallQueue(cfg, fl)
    ensures
      var events := [Call(map[t := fl], now, map[], t), Fire(t, map[t := 0], t)];
      && Reach(cfg, now, events) == Some(Stalled(cfg, t, fl, now))
      && Stranded(Stalled(cfg, t, fl, now).store)
  {
    var events := [Call(map[t := fl], now, map[], t), Fire(t, map[t := 0], t)];
    assert Front(events) == [Call(map[t := fl], now, map[], t)] && Front(Front(events)) == [];
    FirstCallWaits(cfg, t, fl, now);
    FailedFireStops(cfg, t, fl, now);
    assert Reach(cfg, now, Front(events)) == Some(Waiting(cfg, t, fl, now));
    assert t in Stalled(cfg, t, fl, now).store.tags;
  }
}
