/** What one call of StoreFlows in core/store_buffered.go does to the queue of one tag.
    Times are in nanoseconds; a call reads the clock once. Encoding, compressing and writing
    an object either succeed together or fail: `limit` says how many objects of the tag are
    written before a failure, None that none fails. The loop stops at the first failure. */
module ObjectStoreSpec {
  import opened Wrappers

  const SECOND := 1_000_000_000

  datatype Config = Config(maxFlowsPerObject: int, maxFlowArraySize: int,
                           maxSecondsPerObject: int, maxSecondsPerStream: int)
  {
    /** Without these the flush loop does not end, or the trim slices out of range. */
    predicate Sane() { maxFlowsPerObject >= 1 && maxFlowArraySize >= 0 }

    function ObjectDuration(): int { SECOND * maxSecondsPerObject }
    function StreamDuration(): int { SECOND * maxSecondsPerStream }
  }

  datatype Stream = Stream(id: int, seqNumber: nat)

  datatype Object<F> = Object(streamId: int, seqNumber: nat, start: int, end: int, flows: seq<F>)
  {
    /** The last two parts of the object's name; the stream is printed to the second. */
    function Key(): (int, nat) { (FloorSeconds(streamId), seqNumber) }
  }

  /** What leaves a queue: a written object, or flows dropped by one of two steps. */
  datatype Segment<F> = Written(obj: Object<F>) | Trimmed(lost: seq<F>) | Compacted(lost: seq<F>)
  {
    function Flows(): seq<F> {
      match this
      case Written(obj) => obj.flows
      case Trimmed(lost) => lost
      case Compacted(lost) => lost
    }
  }

  datatype TagState<F> = TagState(flows: seq<F>, lastFlush: Option<int>, stream: Option<Stream>)

  /** A tag's state, what has left its queue, and whether the last write failed. */
  datatype Progress<F> = Progress(state: TagState<F>, trace: seq<Segment<F>>, failed: bool)

  function FloorSeconds(t: int): int { t / SECOND }

  function Emptied<F>(): TagState<F> { TagState([], None, None) }

  // ----- one object

  function ObjectSize(cfg: Config, n: nat): nat
    requires cfg.Sane()
  {
    if n > cfg.maxFlowsPerObject then cfg.maxFlowsPerObject else n
  }

  function StreamFor(cfg: Config, s: Option<Stream>, now: int): Stream {
    if s.None? || now - s.value.id >= cfg.StreamDuration() then Stream(now, 0) else s.value
  }

  function NextObject<F>(cfg: Config, s: TagState<F>, now: int): Object<F>
    requires cfg.Sane() && s.lastFlush.Some?
  {
    var stream := StreamFor(cfg, s.stream, now);
    Object(stream.id, stream.seqNumber, s.lastFlush.value, now, s.flows[..ObjectSize(cfg, |s.flows|)])
  }

  function AfterFlush<F>(cfg: Config, s: TagState<F>, now: int): TagState<F>
    requires cfg.Sane()
  {
    var stream := StreamFor(cfg, s.stream, now);
    TagState(s.flows[ObjectSize(cfg, |s.flows|)..], Some(now), Some(stream.(seqNumber := stream.seqNumber + 1)))
  }

  // ----- the flush loop

  predicate MustFlush<F>(cfg: Config, s: TagState<F>, now: int)
    requires s.lastFlush.Some?
  {
    && s.flows != []
    && (|s.flows| >= cfg.maxFlowsPerObject || now - s.lastFlush.value >= cfg.ObjectDuration())
  }

  function Fewer(limit: Option<nat>): Option<nat>
    requires limit != Some(0)
  {
    if limit.Some? then Some(limit.value - 1) else None
  }

  function FlushLoop<F>(cfg: Config, s: TagState<F>, now: int, limit: Option<nat>): (p: Progress<F>)
    requires cfg.Sane() && s.lastFlush.Some?
    ensures p.state.lastFlush.Some?
    decreases |s.flows|
  {
    if !MustFlush(cfg, s, now) then Progress(s, [], false)
    else if limit == Some(0) then Progress(s, [], true)
    else
      var rest := FlushLoop(cfg, AfterFlush(cfg, s, now), now, Fewer(limit));
      rest.(trace := [Written(NextObject(cfg, s, now))] + rest.trace)
  }

  // ----- the steps around the loop

  function Trim<F>(cfg: Config, p: Progress<F>): Progress<F>
    requires cfg.Sane()
  {
    var overflow := |p.state.flows| - cfg.maxFlowArraySize;
    if overflow > 0
    then p.(state := p.state.(flows := p.state.flows[overflow..]),
            trace := p.trace + [Trimmed(p.state.flows[..overflow])])
    else p
  }

  /** The compaction of a flushed tag copies into a slice of length zero, so that nothing is
      copied and the queue ends up empty. */
  function Compact<F>(p: Progress<F>): Progress<F> {
    if p.state.flows == [] then p
    else p.(state := p.state.(flows := []), trace := p.trace + [Compacted(p.state.flows)])
  }

  function Sighted<F>(s: TagState<F>, incoming: seq<F>, now: int): TagState<F> {
    TagState(s.flows + incoming, if s.lastFlush.None? then Some(now) else s.lastFlush, s.stream)
  }

  function StoreTag<F>(cfg: Config, s: TagState<F>, incoming: seq<F>, now: int, limit: Option<nat>): Progress<F>
    requires cfg.Sane()
  {
    var looped := FlushLoop(cfg, Sighted(s, incoming, now), now, limit);
    var trimmed := Trim(cfg, looped);
    if looped.trace != [] then Compact(trimmed) else trimmed
  }

  /** The call writes an object of the tag. */
  predicate Flushes<F>(cfg: Config, s: TagState<F>, incoming: seq<F>, now: int, limit: Option<nat>)
    requires cfg.Sane()
  {
    MustFlush(cfg, Sighted(s, incoming, now), now) && limit != Some(0)
  }

  // ----- runs of one tag

  datatype TagIn<F> = TagIn(incoming: seq<F>, now: int, limit: Option<nat>)

  datatype TagRun<F> = TagRun(state: TagState<F>, trace: seq<Segment<F>>)

  function Run<F>(cfg: Config, ins: seq<TagIn<F>>): TagRun<F>
    requires cfg.Sane()
  {
    if ins == [] then TagRun(Emptied(), [])
    else
      var r, i := Run(cfg, Front(ins)), Last(ins);
      var p := StoreTag(cfg, r.state, i.incoming, i.now, i.limit);
      TagRun(p.state, r.trace + p.trace)
  }

  predicate ClockForward<F>(ins: seq<TagIn<F>>) {
    forall i, j | 0 <= i < j < |ins| :: ins[i].now <= ins[j].now
  }
}
