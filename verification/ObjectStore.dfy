/** The buffered store of core/store_buffered.go in its own form: maps per tag that StoreFlows
    updates in place. A call is proved to do to every tag what StoreTag says and to the
    timers what Restarted says. */
module ObjectStore {
  import opened Wrappers
  import opened ObjectStoreSpec
  import opened FlushTimers

  class StoreBuffered<F> {
    const cfg: Config
    var flows: map<string, seq<F>>
    var lastFlushTime: map<string, int>
    var currentStream: map<string, Stream>
    var flushTimers: map<string, Timer>
    ghost var trace: map<string, seq<Segment<F>>>  // what has left the queue of each tag

    constructor (cfg: Config)
      requires cfg.Sane()
      ensures Valid() && this.cfg == cfg && View() == Store(map[], map[]) && trace == map[]
    {
      this.cfg := cfg;
      flows, lastFlushTime, currentStream, flushTimers, trace := map[], map[], map[], map[], map[];
    }

    ghost predicate Valid()
      reads this`flows, this`lastFlushTime, this`currentStream, this`trace
    {
      cfg.Sane() && lastFlushTime.Keys == flows.Keys && currentStream.Keys <= flows.Keys && trace.Keys == flows.Keys
    }

    /** During a call tags may lack a flush time. */
    ghost predicate Consistent()
      reads this`flows, this`lastFlushTime, this`currentStream, this`trace
    {
      cfg.Sane() && lastFlushTime.Keys <= flows.Keys && currentStream.Keys <= flows.Keys && trace.Keys == flows.Keys
    }

    ghost function TagView(t: string): TagState<F>
      requires t in flows
      reads this`flows, this`lastFlushTime, this`currentStream
    {
      TagState(flows[t], if t in lastFlushTime then Some(lastFlushTime[t]) else None,
               if t in currentStream then Some(currentStream[t]) else None)
    }

    ghost function Tags(): map<string, TagState<F>>
      reads this`flows, this`lastFlushTime, this`currentStream
    {
      map t | t in flows :: TagView(t)
    }

    ghost function View(): Store<F>
      reads this
    {
      Store(Tags(), flushTimers)
    }

    /** Writes one object; encoder, compressor and writer are an arbitrary outcome. A failure
        leaves every queue, stream, flush time and timer as it was. */
    method FlushFlowsToObject(t: string, endTime: int) returns (ok: bool)
      requires Consistent() && t in lastFlushTime && flows[t] != []
      modifies this
      ensures Consistent() && flushTimers == old(flushTimers)
      ensures !ok ==> Tags() == old(Tags()) && trace == old(trace)
      ensures ok ==>
        && Tags() == old(Tags())[t := AfterFlush(cfg, old(TagView(t)), endTime)]
        && trace == Noted(old(trace), t, [Written(NextObject(cfg, old(TagView(t)), endTime))])
    {
      var batch := flows[t];
      if |batch| > cfg.maxFlowsPerObject {
        batch := batch[..cfg.maxFlowsPerObject];
      }
      var startTime := lastFlushTime[t];
      var stream;
      if t in currentStream {
        stream := currentStream[t];
        if endTime - stream.id >= cfg.StreamDuration() {
          stream := Stream(endTime, 0);
        }
      } else {
        stream := Stream(endTime, 0);  // the zero time is farther away than any duration
      }
      ghost var obj := Object(stream.id, stream.seqNumber, startTime, endTime, batch);
      ok := *;
      if !ok {
        return;
      }
      ghost var s := TagView(t);
      assert obj == NextObject(cfg, s, endTime);
      assert TagState(flows[t][|batch|..], Some(endTime), Some(stream.(seqNumber := stream.seqNumber + 1)))
        == AfterFlush(cfg, s, endTime);
      stream := stream.(seqNumber := stream.seqNumber + 1);
      Commit(t, endTime, stream, |batch|);
      trace := trace[t := trace[t] + [Written(obj)]];
    }

    method Commit(t: string, endTime: int, stream: Stream, written: nat)
      requires Consistent() && t in lastFlushTime && written <= |flows[t]|
      modifies this`lastFlushTime, this`currentStream, this`flows
      ensures Consistent()
      ensures Tags() == old(Tags())[t := TagState(old(flows[t][written..]), Some(endTime), Some(stream))]
    {
      lastFlushTime := lastFlushTime[t := endTime];
      currentStream := currentStream[t := stream];
      flows := flows[t := flows[t][written..]];
    }

    /** One turn of the flush loop: whether it goes on, and whether it stopped at a failure. */
    method FlushTurn(t: string, endTime: int) returns (again: bool, failed: bool)
      requires Consistent() && t in lastFlushTime
      modifies this
      ensures Consistent() && flushTimers == old(flushTimers) && t in lastFlushTime
      ensures again || failed <==> MustFlush(cfg, old(TagView(t)), endTime)
      ensures !again ==> Tags() == old(Tags()) && trace == old(trace) && TagView(t) == old(TagView(t))
      ensures again ==>
        && !failed && |flows[t]| < old(|flows[t]|)
        && TagView(t) == AfterFlush(cfg, old(TagView(t)), endTime)
        && Tags() == old(Tags())[t := AfterFlush(cfg, old(TagView(t)), endTime)]
        && trace == Noted(old(trace), t, [Written(NextObject(cfg, old(TagView(t)), endTime))])
    {
      var flowsLength := |flows[t]|;
      if flowsLength == 0 {
        return false, false;
      }
      if flowsLength < cfg.maxFlowsPerObject && endTime - lastFlushTime[t] < cfg.ObjectDuration() {
        return false, false;
      }
      again := FlushFlowsToObject(t, endTime);
      failed := !again;
      assert again ==> Tags()[t] == TagView(t);
      assert !again ==> Tags()[t] == TagView(t) && old(Tags())[t] == old(TagView(t));
    }

    /** The flush loop of one tag; it ends because every object shortens the queue. */
    method FlushTag(t: string, endTime: int) returns (flushed: bool, ghost limit: Option<nat>)
      requires Consistent() && t in lastFlushTime
      modifies this
      ensures Consistent() && flushTimers == old(flushTimers)
      ensures
        var p := FlushLoop(cfg, old(TagView(t)), endTime, limit);
        && Tags() == old(Tags())[t := p.state] && trace == Noted(old(trace), t, p.trace)
        && (flushed <==> p.trace != [])
    {
      flushed := false;
      ghost var s, done := TagView(t), [];
      LeadsFromStart(cfg, s, endTime);
      NotedNothing(trace, t);
      var again, failed := true, false;
      while again
        invariant Consistent() && flushTimers == old(flushTimers) && t in lastFlushTime
        invariant Leads(cfg, s, endTime, done, TagView(t)) && (flushed <==> done != [])
        invariant !again ==> (failed <==> MustFlush(cfg, TagView(t), endTime))
        invariant Tags() == old(Tags())[t := TagView(t)] && trace == Noted(old(trace), t, done)
        decreases again, |flows[t]|
      {
        ghost var seg;
        again, failed, seg := FlushNext(t, endTime, s, done);
        NotedTwice(old(trace), t, done, seg);
        flushed := flushed || again;
        done := done + seg;
      }
      limit := LoopStops(cfg, s, endTime, done, TagView(t), failed);
    }

    method FlushNext(t: string, endTime: int, ghost s: TagState<F>, ghost done: seq<Segment<F>>)
      returns (again: bool, failed: bool, ghost seg: seq<Segment<F>>)
      requires Consistent() && t in lastFlushTime && Leads(cfg, s, endTime, done, TagView(t))
      modifies this
      ensures Consistent() && flushTimers == old(flushTimers) && t in lastFlushTime
      ensures Leads(cfg, s, endTime, done + seg, TagView(t)) && (again <==> seg != [])
      ensures again ==> |flows[t]| < old(|flows[t]|)
      ensures !again ==> (failed <==> MustFlush(cfg, TagView(t), endTime))
      ensures Tags() == old(Tags())[t := TagView(t)] && trace == Noted(old(trace), t, seg)
    {
      ghost var cur := TagView(t);
      seg := [];
      NotedNothing(trace, t);
      assert done + [] == done;
      again, failed := FlushTurn(t, endTime);
      if again {
        LeadsOn(cfg, s, endTime, done, cur);
        seg := [Written(NextObject(cfg, cur, endTime))];
      }
    }

    method TrimTag(t: string)
      requires Consistent() && t in flows
      modifies this
      ensures Consistent() && flushTimers == old(flushTimers) && lastFlushTime == old(lastFlushTime)
      ensures
        var p := Trim(cfg, Progress(old(TagView(t)), [], false));
        Tags() == old(Tags())[t := p.state] && trace == Noted(old(trace), t, p.trace)
    {
      var overflowCount := |flows[t]| - cfg.maxFlowArraySize;
      ghost var dropped: seq<Segment<F>> := [];
      if overflowCount > 0 {
        dropped := [Trimmed(flows[t][..overflowCount])];
        flows := flows[t := flows[t][overflowCount..]];
      }
      assert Trim(cfg, Progress(old(TagView(t)), [], false)).trace == dropped;
      trace := trace[t := trace[t] + dropped];
    }

    // ----- the four parts of StoreFlows

    method AppendTo(t: string, incoming: seq<F>)
      requires Consistent()
      modifies this
      ensures Consistent() && flushTimers == old(flushTimers)
      ensures
        var s := if t in old(Tags()) then old(Tags())[t] else Emptied();
        Tags() == old(Tags())[t := s.(flows := s.flows + incoming)]
      ensures trace == old(trace)[t := Past(old(trace), t)]
    {
      flows := flows[t := (if t in flows then flows[t] else []) + incoming];
      trace := trace[t := if t in trace then trace[t] else []];
    }

    method AppendIncoming(fl: map<string, seq<F>>)
      requires Consistent()
      modifies this
      ensures Consistent() && flushTimers == old(flushTimers) && Tags() == Appended(old(Tags()), fl)
      ensures trace == Known(old(trace), fl.Keys)
    {
      ghost var tags0, trace0 := Tags(), trace;
      AppendedNone(tags0, fl);
      var todo := fl.Keys;
      while todo != {}
        invariant todo <= fl.Keys && Consistent() && flushTimers == old(flushTimers)
        invariant Tags() == Appended(tags0, fl - todo) && trace == Known(trace0, fl.Keys - todo)
        decreases todo
      {
        var t :| t in todo;
        IncomingMore(tags0, trace0, fl, todo, t);
        AppendTo(t, fl[t]);
        todo := todo - {t};
      }
      assert fl.Keys - {} == fl.Keys;
    }

    method Sight(t: string, endTime: int) returns (reset: bool)
      requires Consistent() && t in flows
      modifies this
      ensures Consistent() && flushTimers == old(flushTimers) && trace == old(trace)
      ensures t in lastFlushTime && TagView(t) == Sighted(old(TagView(t)), [], endTime)
      ensures Tags() == old(Tags())[t := TagView(t)] && (reset <==> old(TagView(t)).lastFlush.None?)
    {
      ghost var s := TagView(t);
      assert s.flows + [] == s.flows;
      reset := t !in lastFlushTime;
      if reset {
        lastFlushTime := lastFlushTime[t := endTime];
      }
    }

    method SightAndFlush(t: string, endTime: int)
      returns (flushed: bool, reset: bool, ghost limit: Option<nat>, ghost p: Progress<F>)
      requires Consistent() && t in flows
      modifies this
      ensures Consistent() && flushTimers == old(flushTimers)
      ensures p == LoopOf(cfg, old(TagView(t)), endTime, limit) && (flushed <==> p.trace != [])
      ensures reset <==> flushed || old(TagView(t)).lastFlush.None?
      ensures Tags() == old(Tags())[t := p.state] && trace == Noted(old(trace), t, p.trace)
    {
      ghost var s := TagView(t);
      reset := Sight(t, endTime);
      flushed, limit := FlushTag(t, endTime);
      reset := reset || flushed;
      p := LoopOf(cfg, s, endTime, limit);
    }

    /** What the flush loop and the trim do to one tag. */
    method ServeTag(t: string, endTime: int)
      returns (flushed: bool, reset: bool, ghost limit: Option<nat>, ghost p: Progress<F>)
      requires Consistent() && t in flows
      modifies this
      ensures Consistent() && flushTimers == old(flushTimers)
      ensures ServedAt(cfg, old(TagView(t)), endTime, limit, p, flushed, reset)
      ensures Tags() == old(Tags())[t := p.state] && trace == Noted(old(trace), t, p.trace)
    {
      ghost var s := TagView(t);
      ghost var looped;
      flushed, reset, limit, looped := SightAndFlush(t, endTime);
      assert TagView(t) == Tags()[t] == looped.state;
      p := Trim(cfg, looped);
      ghost var fromNone := Trim(cfg, Progress(looped.state, [], false));
      TrimAfter(cfg, looped);
      NotedTwice(old(trace), t, looped.trace, fromNone.trace);
      TrimTag(t);
    }

    method ServeAll(endTime: int)
      returns (flushedTags: set<string>, tagsToTimerReset: set<string>, ghost limits: map<string, nat>,
               ghost served: map<string, Progress<F>>)
      requires Consistent()
      modifies this
      ensures Consistent() && flushTimers == old(flushTimers)
      ensures AreServed(cfg, old(Tags()), endTime, limits, served, flushedTags, tagsToTimerReset)
        && served.Keys == old(Tags()).Keys
      ensures Tags() == Overlay(old(Tags()), served) && trace == Prolonged(old(trace), served)
    {
      flushedTags, tagsToTimerReset, limits, served := {}, {}, map[], map[];
      ghost var tags0, trace0 := Tags(), trace;
      assert Overlay(tags0, served) == tags0 && Prolonged(trace0, served) == trace0;
      var todo := flows.Keys;
      while todo != {}
        invariant Consistent() && flushTimers == old(flushTimers)
        invariant todo <= tags0.Keys && served.Keys == tags0.Keys - todo && trace0.Keys == tags0.Keys
        invariant AreServed(cfg, tags0, endTime, limits, served, flushedTags, tagsToTimerReset)
        invariant Tags() == Overlay(tags0, served) && trace == Prolonged(trace0, served)
        decreases todo
      {
        var t :| t in todo;
        var flushed, reset;
        ghost var limit, p;
        flushed, reset, limit, p := ServeNext(t, endTime, tags0, trace0, served);
        ServedMore(cfg, tags0, endTime, limits, served, flushedTags, tagsToTimerReset, t, limit, p, flushed, reset);
        KeysMore(tags0.Keys, todo, served.Keys, t);
        limits, served := if limit.Some? then limits[t := limit.value] else limits, served[t := p];
        flushedTags := if flushed then flushedTags + {t} else flushedTags;
        tagsToTimerReset := if reset then tagsToTimerReset + {t} else tagsToTimerReset;
        todo := todo - {t};
      }
    }

    method ServeNext(t: string, endTime: int, ghost tags0: map<string, TagState<F>>,
                     ghost trace0: map<string, seq<Segment<F>>>,
                     ghost served: map<string, Progress<F>>)
      returns (flushed: bool, reset: bool, ghost limit: Option<nat>, ghost p: Progress<F>)
      requires Consistent() && t in tags0 && t !in served && trace0.Keys == tags0.Keys
      requires Tags() == Overlay(tags0, served) && trace == Prolonged(trace0, served)
      modifies this
      ensures Consistent() && flushTimers == old(flushTimers)
      ensures ServedAt(cfg, tags0[t], endTime, limit, p, flushed, reset)
      ensures Tags() == Overlay(tags0, served[t := p]) && trace == Prolonged(trace0, served[t := p])
    {
      OverlayMore(tags0, trace0, served, t, Progress(tags0[t], [], false));
      assert t in Tags();
      assert TagView(t) == Tags()[t] == tags0[t];
      flushed, reset, limit, p := ServeTag(t, endTime);
      OverlayMore(tags0, trace0, served, t, p);
    }

    /** Meant to release memory: the new slice has length zero, so that the copy is empty. */
    method CompactTag(t: string)
      requires Consistent() && t in flows
      modifies this
      ensures Consistent() && flushTimers == old(flushTimers)
      ensures
        var p := Compacting(old(TagView(t)));
        Tags() == old(Tags())[t := p.state] && trace == Noted(old(trace), t, p.trace)
    {
      ghost var lost := Compacting(TagView(t)).trace;
      var newArray: seq<F> := [];
      newArray := GoCopy(newArray, flows[t]);
      flows := flows[t := newArray];
      trace := trace[t := trace[t] + lost];
    }

    method CompactNext(t: string, ghost tags0: map<string, TagState<F>>, ghost trace0: map<string, seq<Segment<F>>>,
                       ghost done: map<string, Progress<F>>)
      requires Consistent() && t in tags0 && t !in done && trace0.Keys == tags0.Keys
      requires Tags() == Overlay(tags0, done) && trace == Prolonged(trace0, done)
      modifies this
      ensures Consistent() && flushTimers == old(flushTimers)
      ensures
        var p := Compacting(tags0[t]);
        Tags() == Overlay(tags0, done[t := p]) && trace == Prolonged(trace0, done[t := p])
    {
      OverlayMore(tags0, trace0, done, t, Compacting(tags0[t]));
      assert t in Tags();
      assert TagView(t) == Tags()[t] == tags0[t];
      CompactTag(t);
    }

    method CompactAll(flushedTags: set<string>)
      requires Consistent() && flushedTags <= flows.Keys
      modifies this
      ensures Consistent() && flushTimers == old(flushTimers)
      ensures
        var done := CompactingAll(old(Tags()), flushedTags);
        Tags() == Overlay(old(Tags()), done) && trace == Prolonged(old(trace), done)
    {
      ghost var tags0, trace0 := Tags(), trace;
      var todo := flushedTags;
      CompactingMore(tags0, flushedTags, todo);
      assert Overlay(tags0, map[]) == tags0 && Prolonged(trace0, map[]) == trace0;
      while todo != {}
        invariant todo <= flushedTags && Consistent() && flushTimers == old(flushTimers)
        invariant Tags() == Overlay(tags0, CompactingAll(tags0, flushedTags - todo))
        invariant trace == Prolonged(trace0, CompactingAll(tags0, flushedTags - todo))
        decreases todo
      {
        var t :| t in todo;
        CompactNext(t, tags0, trace0, CompactingAll(tags0, flushedTags - todo));
        CompactingMore(tags0, flushedTags, todo);
        todo := todo - {t};
      }
      assert flushedTags - {} == flushedTags;
    }

    method ResetTimers(tagsToTimerReset: set<string>, endTime: int) returns (ghost r: string)
      requires Valid()
      modifies this`flushTimers
      ensures Valid() && Tags() == old(Tags()) && (tagsToTimerReset != {} ==> r in tagsToTimerReset)
      ensures flushTimers == Restarted(cfg, old(flushTimers), tagsToTimerReset, endTime, r)
    {
      r := "";
      ghost var timers0 := flushTimers;
      var todo := tagsToTimerReset;
      assert Stopped(timers0, {}) == timers0;
      while todo != {}
        invariant todo <= tagsToTimerReset && flushTimers == Stopped(timers0, tagsToTimerReset - todo)
        decreases todo
      {
        var t :| t in todo;
        todo := todo - {t};
        if t in flushTimers {
          flushTimers := flushTimers[t := flushTimers[t].(running := false)];
        }
      }
      assert tagsToTimerReset - {} == tagsToTimerReset;
      if tagsToTimerReset != {} {
        var t :| t in tagsToTimerReset;  // one timer covers all of them
        r := t;
        if cfg.ObjectDuration() > 0 {
          flushTimers := flushTimers[t := Timer(endTime + cfg.ObjectDuration(), true)];
        }
      }
    }

    method ServeAndCompact(endTime: int)
      returns (tagsToTimerReset: set<string>, ghost flushedTags: set<string>, ghost limits: map<string, nat>,
               ghost served: map<string, Progress<F>>)
      requires Consistent()
      modifies this
      ensures Consistent() && flushTimers == old(flushTimers)
      ensures AreServed(cfg, old(Tags()), endTime, limits, served, flushedTags, tagsToTimerReset)
        && served.Keys == old(Tags()).Keys
      ensures Tags() == ServedAndCompacted(old(Tags()), served, flushedTags)
      ensures trace == TraceCompacted(old(trace), old(Tags()), served, flushedTags)
    {
      var flushed;
      flushed, tagsToTimerReset, limits, served := ServeAll(endTime);
      flushedTags := flushed;
      CompactAll(flushed);
    }

    method StoreQueues(fl: map<string, seq<F>>, endTime: int)
      returns (tagsToTimerReset: set<string>, ghost limits: map<string, nat>)
      requires Valid()
      modifies this
      ensures Valid() && flushTimers == old(flushTimers)
      ensures AreQueues(cfg, old(View()), old(trace), fl, endTime, limits, tagsToTimerReset, Tags(), trace)
    {
      ghost var st0, trace0 := View(), trace;
      assert trace0.Keys == st0.tags.Keys;
      AppendIncoming(fl);
      ghost var flushedTags, served;
      ghost var tags1 := Tags();
      tagsToTimerReset, flushedTags, limits, served := ServeAndCompact(endTime);
      CallEnds(cfg, st0, trace0, fl, tags1, endTime, limits, served, flushedTags, tagsToTimerReset, Tags(), trace);
      AllFlushed(Tags());
    }

    /** Once every tag has a flush time the store is as between calls. */
    lemma AllFlushed(tags: map<string, TagState<F>>)
      requires Consistent() && tags == Tags() && forall t | t in tags :: tags[t].lastFlush.Some?
      ensures Valid()
    {
      forall t | t in flows ensures t in lastFlushTime {
        assert t in tags && tags[t] == TagView(t);
      }
    }

    /** A call does to every tag, and to the timers, what StoreCall says; what leaves the queue
        of a tag is appended to its trace. */
    method StoreFlows(fl: map<string, seq<F>>, endTime: int) returns (ghost limits: map<string, nat>, ghost r: string)
      requires Valid()
      modifies this
      ensures Valid() && IsCall(cfg, old(View()), old(trace), fl, endTime, limits, r, View(), trace)
    {
      ghost var st0, trace0 := View(), trace;
      var tagsToTimerReset;
      tagsToTimerReset, limits := StoreQueues(fl, endTime);
      r := ResetTimers(tagsToTimerReset, endTime);
      CallIs(cfg, st0, trace0, fl, endTime, limits, r, tagsToTimerReset, View(), trace);
    }
  }

  /** What a call makes of the store and of the traces. */
  ghost predicate IsCall<F>(cfg: Config, st: Store<F>, trace: map<string, seq<Segment<F>>>, fl: map<string, seq<F>>,
                            now: int,
                            limits: map<string, nat>, r: string, st': Store<F>, trace': map<string, seq<Segment<F>>>)
    requires cfg.Sane()
  {
    && st' == StoreCall(cfg, st, fl, now, limits, r)
    && Registers(cfg, st, fl, now, limits, r)
    && IsTraceAfter(cfg, st, trace, fl, now, limits, trace')
  }

  /** What its first three parts make of the tags and of the traces. */
  ghost predicate AreQueues<F>(cfg: Config, st: Store<F>, trace: map<string, seq<Segment<F>>>,
                               fl: map<string, seq<F>>, now: int,
                               limits: map<string, nat>, resets: set<string>,
                               tags': map<string, TagState<F>>, trace': map<string, seq<Segment<F>>>)
    requires cfg.Sane()
  {
    && tags' == CallTags(cfg, st, fl, now, limits) && resets == Resets(cfg, st, fl, now, limits)
    && IsTraceAfter(cfg, st, trace, fl, now, limits, trace')
  }

  lemma CallIs<F>(cfg: Config, st: Store<F>, trace: map<string, seq<Segment<F>>>, fl: map<string, seq<F>>, now: int,
                  limits: map<string, nat>, r: string, resets: set<string>, st': Store<F>,
                  trace': map<string, seq<Segment<F>>>)
    requires cfg.Sane() && AreQueues(cfg, st, trace, fl, now, limits, resets, st'.tags, trace')
    requires st'.timers == Restarted(cfg, st.timers, resets, now, r) && (resets != {} ==> r in resets)
    ensures IsCall(cfg, st, trace, fl, now, limits, r, st', trace')
  {
  }

  /** What a call takes out of the queue of a tag is appended to the tag's trace. */
  ghost predicate IsTraceAfter<F>(cfg: Config, st: Store<F>, trace: map<string, seq<Segment<F>>>,
                                  fl: map<string, seq<F>>,
                                  now: int, limits: map<string, nat>, trace': map<string, seq<Segment<F>>>)
    requires cfg.Sane()
  {
    forall t | t in trace' :: trace'[t] == Past(trace, t) + TagAfter(cfg, st, fl, now, limits, t).trace
  }

  datatype StoreArgs<F> = StoreArgs(fl: map<string, seq<F>>, now: int, limits: map<string, nat>)

  /** The calls as one tag sees them, from the first that brings it flows. */
  function InsOf<F>(calls: seq<StoreArgs<F>>, t: string): seq<TagIn<F>> {
    if calls == [] then []
    else
      var ins, c := InsOf(Front(calls), t), Last(calls);
      if ins == [] && t !in c.fl then [] else ins + [TagIn(Incoming(c.fl, t), c.now, LimitOf(c.limits, t))]
  }

  /** Every tag is where the run of its own part of the calls has led, and has left behind
      the trace of that run. */
  ghost predicate IsRecord<F>(cfg: Config, tags: map<string, TagState<F>>, trace: map<string, seq<Segment<F>>>,
                              calls: seq<StoreArgs<F>>)
    requires cfg.Sane()
  {
    && trace.Keys == tags.Keys
    && (forall t :: t in tags <==> InsOf(calls, t) != [])
    && forall t | t in tags :: Run(cfg, InsOf(calls, t)) == TagRun(tags[t], trace[t])
  }

  /** A call keeps that. */
  lemma RecordMore<F>(cfg: Config, st: Store<F>, trace: map<string, seq<Segment<F>>>, calls: seq<StoreArgs<F>>,
                      fl: map<string, seq<F>>, now: int, limits: map<string, nat>, r: string,
                      st': Store<F>, trace': map<string, seq<Segment<F>>>)
    requires cfg.Sane() && IsRecord(cfg, st.tags, trace, calls)
    requires IsCall(cfg, st, trace, fl, now, limits, r, st', trace') && trace'.Keys == st'.tags.Keys
    ensures IsRecord(cfg, st'.tags, trace', calls + [StoreArgs(fl, now, limits)])
  {
    forall t
      ensures t in st'.tags <==> InsOf(calls + [StoreArgs(fl, now, limits)], t) != []
      ensures t in st'.tags ==>
        Run(cfg, InsOf(calls + [StoreArgs(fl, now, limits)], t)) == TagRun(st'.tags[t], trace'[t])
    {
      TagSeenMore(cfg, st, trace, calls, fl, now, limits, t);
      if t in st.tags.Keys + fl.Keys {
        TagRecordMore(cfg, st, trace, calls, fl, now, limits, t);
      }
    }
  }

  lemma TagSeenMore<F>(cfg: Config, st: Store<F>, trace: map<string, seq<Segment<F>>>, calls: seq<StoreArgs<F>>,
                       fl: map<string, seq<F>>, now: int, limits: map<string, nat>, t: string)
    requires cfg.Sane() && IsRecord(cfg, st.tags, trace, calls)
    ensures t in st.tags.Keys + fl.Keys <==> InsOf(calls + [StoreArgs(fl, now, limits)], t) != []
  {
    assert (calls + [StoreArgs(fl, now, limits)])[..|calls|] == calls;
  }

  lemma TagRecordMore<F>(cfg: Config, st: Store<F>, trace: map<string, seq<Segment<F>>>, calls: seq<StoreArgs<F>>,
                         fl: map<string, seq<F>>, now: int, limits: map<string, nat>, t: string)
    requires cfg.Sane() && IsRecord(cfg, st.tags, trace, calls) && t in st.tags.Keys + fl.Keys
    ensures
      var p := TagAfter(cfg, st, fl, now, limits, t);
      Run(cfg, InsOf(calls + [StoreArgs(fl, now, limits)], t)) == TagRun(p.state, Past(trace, t) + p.trace)
  {
    var calls', i := calls + [StoreArgs(fl, now, limits)], TagIn(Incoming(fl, t), now, LimitOf(limits, t));
    assert calls'[..|calls|] == calls;
    var ins := InsOf(calls', t);
    assert ins == InsOf(calls, t) + [i] && Front(ins) == InsOf(calls, t);
    assert Run(cfg, InsOf(calls, t)) == TagRun(st.At(t), Past(trace, t));
  }

  /** The queues after the incoming flows are appended. */
  function Appended<F>(tags: map<string, TagState<F>>, fl: map<string, seq<F>>): map<string, TagState<F>> {
    map t | t in tags.Keys + fl.Keys ::
      var s := if t in tags then tags[t] else Emptied();
      if t in fl then s.(flows := s.flows + fl[t]) else s
  }

  /** A trace to which segments of one tag are added. */
  function Noted<F>(trace: map<string, seq<Segment<F>>>, t: string, segs: seq<Segment<F>>)
    : map<string, seq<Segment<F>>>
  {
    trace[t := Past(trace, t) + segs]
  }

  lemma NotedTwice<F>(trace: map<string, seq<Segment<F>>>, t: string, a: seq<Segment<F>>, b: seq<Segment<F>>)
    ensures Noted(Noted(trace, t, a), t, b) == Noted(trace, t, a + b)
  {
    assert Past(trace, t) + a + b == Past(trace, t) + (a + b);
  }

  lemma NotedNothing<F>(trace: map<string, seq<Segment<F>>>, t: string)
    requires t in trace
    ensures Noted(trace, t, []) == trace
  {
    assert trace[t] + [] == trace[t];
  }

  function Past<F>(trace: map<string, seq<Segment<F>>>, t: string): seq<Segment<F>> {
    if t in trace then trace[t] else []
  }

  lemma AppendedMore<F>(tags: map<string, TagState<F>>, fl: map<string, seq<F>>, todo: set<string>, t: string)
    requires t in todo && todo <= fl.Keys
    ensures
      var a := Appended(tags, fl - todo);
      var s := if t in a then a[t] else Emptied();
      Appended(tags, fl - (todo - {t})) == a[t := s.(flows := s.flows + fl[t])]
  {
    var a, b := Appended(tags, fl - todo), Appended(tags, fl - (todo - {t}));
    assert (fl - (todo - {t})).Keys == (fl - todo).Keys + {t};
    assert b.Keys == a.Keys + {t};
    assert forall x | x in a && x != t :: b[x] == a[x];
  }

  lemma IncomingMore<F>(tags: map<string, TagState<F>>, trace: map<string, seq<Segment<F>>>, fl: map<string, seq<F>>,
                        todo: set<string>, t: string)
    requires t in todo && todo <= fl.Keys
    ensures
      var a := Appended(tags, fl - todo);
      var s := if t in a then a[t] else Emptied();
      Appended(tags, fl - (todo - {t})) == a[t := s.(flows := s.flows + fl[t])]
    ensures
      var known := Known(trace, fl.Keys - todo);
      Known(trace, fl.Keys - (todo - {t})) == known[t := Past(known, t)]
  {
    AppendedMore(tags, fl, todo, t);
    KnownMore(trace, fl.Keys - todo, t);
    assert fl.Keys - todo + {t} == fl.Keys - (todo - {t});
  }

  lemma AppendedNone<F>(tags: map<string, TagState<F>>, fl: map<string, seq<F>>)
    ensures Appended(tags, fl - fl.Keys) == tags && fl - {} == fl
  {
  }

  function LoopOf<F>(cfg: Config, s: TagState<F>, now: int, limit: Option<nat>): Progress<F>
    requires cfg.Sane()
  {
    FlushLoop(cfg, Sighted(s, [], now), now, limit)
  }

  function TrimmedLoop<F>(cfg: Config, s: TagState<F>, now: int, limit: Option<nat>): Progress<F>
    requires cfg.Sane()
  {
    Trim(cfg, LoopOf(cfg, s, now, limit))
  }

  function Known<F>(trace: map<string, seq<Segment<F>>>, tags: set<string>): map<string, seq<Segment<F>>> {
    map t | t in trace.Keys + tags :: Past(trace, t)
  }

  lemma KnownMore<F>(trace: map<string, seq<Segment<F>>>, tags: set<string>, t: string)
    ensures Known(trace, tags + {t}) == Known(trace, tags)[t := Past(Known(trace, tags), t)]
    ensures Known(trace, {}) == trace
  {
  }

  function Overlay<F>(tags: map<string, TagState<F>>, served: map<string, Progress<F>>): map<string, TagState<F>> {
    map t | t in tags :: if t in served then served[t].state else tags[t]
  }

  function Prolonged<F>(trace: map<string, seq<Segment<F>>>, served: map<string, Progress<F>>)
    : map<string, seq<Segment<F>>>
  {
    map t | t in trace :: if t in served then trace[t] + served[t].trace else trace[t]
  }

  /** The served tags, which of them wrote an object and whose timers are to be reset. */
  ghost predicate AreServed<F>(cfg: Config, tags: map<string, TagState<F>>, now: int, limits: map<string, nat>,
                               served: map<string, Progress<F>>, flushedTags: set<string>, resets: set<string>)
    requires cfg.Sane()
  {
    && served.Keys <= tags.Keys && limits.Keys <= served.Keys && flushedTags <= served.Keys && resets <= served.Keys
    && forall t | t in served ::
      ServedAt(cfg, tags[t], now, LimitOf(limits, t), served[t], t in flushedTags, t in resets)
  }

  ghost predicate ServedAt<F>(cfg: Config, s: TagState<F>, now: int, limit: Option<nat>, p: Progress<F>,
                              flushed: bool, reset: bool)
    requires cfg.Sane()
  {
    && p == TrimmedLoop(cfg, s, now, limit)
    && (flushed <==> LoopOf(cfg, s, now, limit).trace != [])
    && (reset <==> flushed || s.lastFlush.None?)
  }

  lemma KeysMore(keys: set<string>, todo: set<string>, done: set<string>, t: string)
    requires todo <= keys && done == keys - todo && t in todo
    ensures todo - {t} <= keys && done + {t} == keys - (todo - {t})
  {
  }

  lemma LimitsMore(limits: map<string, nat>, t: string, limit: Option<nat>)
    requires t !in limits
    ensures
      var more := if limit.Some? then limits[t := limit.value] else limits;
      LimitOf(more, t) == limit && forall x | x != t :: LimitOf(more, x) == LimitOf(limits, x)
  {
  }

  lemma ServedMore<F>(cfg: Config, tags: map<string, TagState<F>>, now: int,
                      limits: map<string, nat>, served: map<string, Progress<F>>, flushedTags: set<string>,
                      resets: set<string>,
                      t: string, limit: Option<nat>, p: Progress<F>, flushed: bool, reset: bool)
    requires cfg.Sane() && AreServed(cfg, tags, now, limits, served, flushedTags, resets)
    requires t in tags && t !in served && ServedAt(cfg, tags[t], now, limit, p, flushed, reset)
    ensures AreServed(cfg, tags, now, if limit.Some? then limits[t := limit.value] else limits, served[t := p],
                      if flushed then flushedTags + {t} else flushedTags, if reset then resets + {t} else resets)
  {
    LimitsMore(limits, t, limit);
    var more := if limit.Some? then limits[t := limit.value] else limits;
    var flushedMore := if flushed then flushedTags + {t} else flushedTags;
    var resetsMore := if reset then resets + {t} else resets;
    forall x | x in served
      ensures ServedAt(cfg, tags[x], now, LimitOf(more, x), served[x], x in flushedMore, x in resetsMore)
    {
      assert ServedAt(cfg, tags[x], now, LimitOf(limits, x), served[x], x in flushedTags, x in resets);
    }
    assert ServedAt(cfg, tags[t], now, LimitOf(more, t), p, t in flushedMore, t in resetsMore);
  }

  lemma OverlayMore<F>(tags: map<string, TagState<F>>, trace: map<string, seq<Segment<F>>>,
                       served: map<string, Progress<F>>,
                       t: string, p: Progress<F>)
    requires t in tags && t in trace && t !in served
    ensures Overlay(tags, served[t := p]) == Overlay(tags, served)[t := p.state]
    ensures Prolonged(trace, served[t := p]) == Noted(Prolonged(trace, served), t, p.trace)
    ensures Overlay(tags, served)[t] == tags[t] && Prolonged(trace, served)[t] == trace[t]
  {
  }

  /** Go's copy: as many elements as both slices have. */
  function GoCopy<F>(dst: seq<F>, src: seq<F>): seq<F> {
    if |dst| <= |src| then src[..|dst|] else src + dst[|src|..]
  }

  function Compacting<F>(s: TagState<F>): Progress<F> {
    Compact(Progress(s, [], false))
  }

  function CompactingAll<F>(tags: map<string, TagState<F>>, done: set<string>): map<string, Progress<F>> {
    map t | t in tags && t in done :: Compacting(tags[t])
  }

  lemma CompactingMore<F>(tags: map<string, TagState<F>>, all: set<string>, todo: set<string>)
    requires todo <= all <= tags.Keys
    ensures CompactingAll(tags, all - all) == map[]
    ensures forall t | t in todo :: t !in CompactingAll(tags, all - todo)
    ensures forall t | t in todo ::
      CompactingAll(tags, all - (todo - {t})) == CompactingAll(tags, all - todo)[t := Compacting(tags[t])]
  {
  }

  lemma CompactAfter<F>(p: Progress<F>, past: seq<Segment<F>>)
    ensures Compact(p).state == Compacting(p.state).state
    ensures past + p.trace + Compacting(p.state).trace == past + Compact(p).trace
  {
    assert past + p.trace + [] == past + p.trace;
  }

  lemma AppendedSighted<F>(st: Store<F>, fl: map<string, seq<F>>, now: int, t: string)
    requires t in st.tags.Keys + fl.Keys
    ensures Sighted(Appended(st.tags, fl)[t], [], now) == Sighted(st.At(t), Incoming(fl, t), now)
    ensures Appended(st.tags, fl)[t].lastFlush == st.At(t).lastFlush
  {
    var s := st.At(t);
    assert s.flows + [] == s.flows;
    assert s.flows + Incoming(fl, t) + [] == s.flows + Incoming(fl, t);
  }

  /** One tag through all four parts of a call. */
  lemma TagCallEnds<F>(cfg: Config, st0: Store<F>, past: seq<Segment<F>>, fl: map<string, seq<F>>,
                       now: int, limits: map<string, nat>, p: Progress<F>, flushed: bool, reset: bool, t: string)
    requires cfg.Sane() && t in st0.tags.Keys + fl.Keys
    requires ServedAt(cfg, Appended(st0.tags, fl)[t], now, LimitOf(limits, t), p, flushed, reset)
    ensures
      var after := TagAfter(cfg, st0, fl, now, limits, t);
      var more := if flushed then Compacting(p.state) else Progress(p.state, [], false);
      && after.state == more.state && past + p.trace + more.trace == past + after.trace
      && after.state.lastFlush.Some?
    ensures reset <==> t in Resets(cfg, st0, fl, now, limits)
  {
    AppendedSighted(st0, fl, now, t);
    CompactAfter(p, past);
    FlushTime(cfg, Sighted(st0.At(t), Incoming(fl, t), now), now, LimitOf(limits, t));
    assert past + p.trace + [] == past + p.trace;
  }

  lemma CallEndsAt<F>(cfg: Config, st0: Store<F>, trace0: map<string, seq<Segment<F>>>, fl: map<string, seq<F>>,
                      now: int,
                      limits: map<string, nat>, served: map<string, Progress<F>>, flushedTags: set<string>,
                      resets: set<string>, t: string)
    requires cfg.Sane() && trace0.Keys == st0.tags.Keys && t in st0.tags.Keys + fl.Keys
    requires AreServed(cfg, Appended(st0.tags, fl), now, limits, served, flushedTags, resets) && t in served
    ensures
      var tags := Overlay(Appended(st0.tags, fl), served);
      var done := CompactingAll(tags, flushedTags);
      var after := TagAfter(cfg, st0, fl, now, limits, t);
      && Overlay(tags, done)[t] == after.state && after.state.lastFlush.Some?
      && Prolonged(Prolonged(Known(trace0, fl.Keys), served), done)[t] == Past(trace0, t) + after.trace
      && (t in resets <==> t in Resets(cfg, st0, fl, now, limits))
  {
    TagCallEnds(cfg, st0, Past(trace0, t), fl, now, limits, served[t], t in flushedTags, t in resets, t);
    assert Past(trace0, t) + served[t].trace + [] == Past(trace0, t) + served[t].trace;
  }

  lemma ResetsEnd<F>(cfg: Config, st0: Store<F>, trace0: map<string, seq<Segment<F>>>, fl: map<string, seq<F>>,
                     now: int,
                     limits: map<string, nat>, served: map<string, Progress<F>>, flushedTags: set<string>,
                     resets: set<string>)
    requires cfg.Sane() && trace0.Keys == st0.tags.Keys
    requires AreServed(cfg, Appended(st0.tags, fl), now, limits, served, flushedTags, resets)
      && served.Keys == st0.tags.Keys + fl.Keys
    ensures resets == Resets(cfg, st0, fl, now, limits)
  {
    forall t | t in st0.tags.Keys + fl.Keys ensures t in resets <==> t in Resets(cfg, st0, fl, now, limits) {
      CallEndsAt(cfg, st0, trace0, fl, now, limits, served, flushedTags, resets, t);
    }
  }

  lemma SameMap<K, V>(a: map<K, V>, b: map<K, V>)
    requires a.Keys == b.Keys && forall k | k in a :: a[k] == b[k]
    ensures a == b
  {
  }

  function ServedAndCompacted<F>(tags: map<string, TagState<F>>, served: map<string, Progress<F>>,
                                 flushedTags: set<string>): map<string, TagState<F>>
  {
    var tags2 := Overlay(tags, served);
    Overlay(tags2, CompactingAll(tags2, flushedTags))
  }

  function TraceCompacted<F>(trace: map<string, seq<Segment<F>>>, tags: map<string, TagState<F>>,
                             served: map<string, Progress<F>>,
                             flushedTags: set<string>): map<string, seq<Segment<F>>> {
    Prolonged(Prolonged(trace, served), CompactingAll(Overlay(tags, served), flushedTags))
  }

  lemma TagsEnd<F>(cfg: Config, st0: Store<F>, fl: map<string, seq<F>>, now: int, limits: map<string, nat>,
                   tags: map<string, TagState<F>>)
    requires cfg.Sane() && tags.Keys == st0.tags.Keys + fl.Keys
    requires forall t | t in tags :: tags[t] == TagAfter(cfg, st0, fl, now, limits, t).state
    ensures tags == CallTags(cfg, st0, fl, now, limits)
  {
    SameMap(tags, CallTags(cfg, st0, fl, now, limits));
  }

  lemma EveryTagEnds<F>(cfg: Config, st0: Store<F>, trace0: map<string, seq<Segment<F>>>, fl: map<string, seq<F>>,
                        now: int,
                        limits: map<string, nat>, served: map<string, Progress<F>>, flushedTags: set<string>,
                        resets: set<string>)
    requires cfg.Sane() && trace0.Keys == st0.tags.Keys
    requires AreServed(cfg, Appended(st0.tags, fl), now, limits, served, flushedTags, resets)
      && served.Keys == st0.tags.Keys + fl.Keys
    ensures
      var tags := ServedAndCompacted(Appended(st0.tags, fl), served, flushedTags);
      forall t | t in tags :: tags[t] == TagAfter(cfg, st0, fl, now, limits, t).state && tags[t].lastFlush.Some?
    ensures
      var trace := TraceCompacted(Known(trace0, fl.Keys), Appended(st0.tags, fl), served, flushedTags);
      forall t | t in trace :: trace[t] == Past(trace0, t) + TagAfter(cfg, st0, fl, now, limits, t).trace
  {
    var tags := ServedAndCompacted(Appended(st0.tags, fl), served, flushedTags);
    var trace := TraceCompacted(Known(trace0, fl.Keys), Appended(st0.tags, fl), served, flushedTags);
    forall t | t in st0.tags.Keys + fl.Keys
      ensures tags[t] == TagAfter(cfg, st0, fl, now, limits, t).state && tags[t].lastFlush.Some?
      ensures trace[t] == Past(trace0, t) + TagAfter(cfg, st0, fl, now, limits, t).trace
    {
      CallEndsAt(cfg, st0, trace0, fl, now, limits, served, flushedTags, resets, t);
    }
  }

  /** All tags through all four parts of a call. */
  lemma CallEnds<F>(cfg: Config, st0: Store<F>, trace0: map<string, seq<Segment<F>>>, fl: map<string, seq<F>>,
                    tags1: map<string, TagState<F>>, now: int,
                    limits: map<string, nat>, served: map<string, Progress<F>>, flushedTags: set<string>,
                    resets: set<string>,
                    tags: map<string, TagState<F>>, trace: map<string, seq<Segment<F>>>)
    requires cfg.Sane() && trace0.Keys == st0.tags.Keys && tags1 == Appended(st0.tags, fl)
    requires AreServed(cfg, tags1, now, limits, served, flushedTags, resets) && served.Keys == tags1.Keys
    requires tags == ServedAndCompacted(tags1, served, flushedTags)
    requires trace == TraceCompacted(Known(trace0, fl.Keys), tags1, served, flushedTags)
    ensures AreQueues(cfg, st0, trace0, fl, now, limits, resets, tags, trace)
      && forall t | t in tags :: tags[t].lastFlush.Some?
  {
    EveryTagEnds(cfg, st0, trace0, fl, now, limits, served, flushedTags, resets);
    TagsEnd(cfg, st0, fl, now, limits, tags);
    ResetsEnd(cfg, st0, trace0, fl, now, limits, served, flushedTags, resets);
  }

  lemma TrimAfter<F>(cfg: Config, p: Progress<F>)
    requires cfg.Sane()
    ensures
      var fromNone := Trim(cfg, Progress(p.state, [], false));
      Trim(cfg, p).state == fromNone.state && p.trace + fromNone.trace == Trim(cfg, p).trace
  {
    assert p.trace + [] == p.trace;
  }

  function More(lim: Option<nat>, n: nat): Option<nat> {
    if lim.Some? then Some(lim.value + n) else None
  }

  /** After the objects of `done` the loop that started in `s` is where it would start in `cur`. */
  ghost predicate Leads<F>(cfg: Config, s: TagState<F>, now: int, done: seq<Segment<F>>, cur: TagState<F>)
    requires cfg.Sane()
  {
    && s.lastFlush.Some? && cur.lastFlush.Some?
    && forall lim: Option<nat> ::
      FlushLoop(cfg, s, now, More(lim, |done|)) == Prepend(done, FlushLoop(cfg, cur, now, lim))
  }

  function Prepend<F>(done: seq<Segment<F>>, p: Progress<F>): Progress<F> {
    Progress(p.state, done + p.trace, p.failed)
  }

  lemma LeadsOn<F>(cfg: Config, s: TagState<F>, now: int, done: seq<Segment<F>>, cur: TagState<F>)
    requires cfg.Sane() && Leads(cfg, s, now, done, cur) && MustFlush(cfg, cur, now)
    ensures Leads(cfg, s, now, done + [Written(NextObject(cfg, cur, now))], AfterFlush(cfg, cur, now))
  {
    var o, next := Written(NextObject(cfg, cur, now)), AfterFlush(cfg, cur, now);
    forall lim: Option<nat>
      ensures FlushLoop(cfg, s, now, More(lim, |done + [o]|)) == Prepend(done + [o], FlushLoop(cfg, next, now, lim))
    {
      var more := More(lim, 1);
      assert More(more, |done|) == More(lim, |done + [o]|) && Fewer(more) == lim;
      assert FlushLoop(cfg, cur, now, more) == Prepend([o], FlushLoop(cfg, next, now, lim));
      assert done + ([o] + FlushLoop(cfg, next, now, lim).trace) == done + [o] + FlushLoop(cfg, next, now, lim).trace;
    }
  }

  lemma LeadsFromStart<F>(cfg: Config, s: TagState<F>, now: int)
    requires cfg.Sane() && s.lastFlush.Some?
    ensures Leads(cfg, s, now, [], s)
  {
    forall lim: Option<nat> ensures FlushLoop(cfg, s, now, More(lim, 0)) == Prepend([], FlushLoop(cfg, s, now, lim)) {
      assert More(lim, 0) == lim;
    }
  }

  lemma LoopStops<F>(cfg: Config, s: TagState<F>, now: int, done: seq<Segment<F>>, cur: TagState<F>, failed: bool)
    returns (limit: Option<nat>)
    requires cfg.Sane() && Leads(cfg, s, now, done, cur) && (failed <==> MustFlush(cfg, cur, now))
    ensures FlushLoop(cfg, s, now, limit) == Progress(cur, done, failed)
  {
    var last := if failed then Some(0) else None;
    limit := More(last, |done|);
    assert FlushLoop(cfg, cur, now, last) == Progress(cur, [], failed);
    assert done + [] == done;
  }
}
