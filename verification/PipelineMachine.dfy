/**
 The ingest pipeline as interleaved threads: the websocket sink, the pump, and one consumer per shard. Each
 thread advances by single steps: a pool call under its mutex, a frame write, a route decision, or one load,
 store or publish of a ring. The scheduler picks the thread, and the value (`view`) that a load of another
 thread's index returns.
 */
module PipelineMachine {
  import opened MarketTypes
  import opened FramePool
  import R = SpscRing

  /** What the decoder extracts from a frame, when it can. */
  datatype Fields = Fields(market: string, seqId: Option<nat>)

  datatype RoutedEvent = RoutedEvent(shard: nat, market: string, seqId: Option<nat>, payload: string)

  /** `decode` and `hash` are the program's pure functions of a frame and of a ticker. */
  datatype Config = Config(
    poolCapacity: nat,
    queueCapacity: nat,
    requestedShards: nat,
    shardQueueCapacity: nat,
    source: string,
    decode: RawFrame -> Option<Fields>,
    hash: string -> nat)
  {
    function ShardCount(): nat {
      if requestedShards == 0 then 1 else requestedShards
    }

    function ShardOf(market: string): nat {
      if market == "" then 0 else hash(market) % ShardCount()
    }

    /** The frame the sink writes for a message. */
    function SinkFrame(payload: string): RawFrame {
      RawFrame(source, payload, "", None)
    }

    function Routed(payload: string): Option<RoutedEvent> {
      match decode(SinkFrame(payload))
      case None => None
      case Some(f) => Some(RoutedEvent(ShardOf(f.market), f.market, f.seqId, payload))
    }
  }

  /** A market's shard: its hash modulo the number of shards, which is one at least; no market, the first shard. */
  function ShardFor(c: Config, market: string): int {
    if market == "" then 0
    else if c.requestedShards <= 1 then 0
    else c.hash(market) % c.requestedShards
  }

  /** Decoded messages are routed by their market, with their payload and sequence id; the others nowhere. */
  lemma RoutedMeans(c: Config, payload: string)
    ensures var fields := c.decode(RawFrame(c.source, payload, "", None));
            var event := c.Routed(payload);
            && (event.Some? <==> fields.Some?)
            && (event.Some? ==>
                  && event.value.market == fields.value.market && event.value.seqId == fields.value.seqId
                  && event.value.payload == payload && event.value.shard == ShardFor(c, fields.value.market))
  {
  }

  lemma ShardForIsShardOf(c: Config, market: string)
    ensures c.ShardOf(market) == ShardFor(c, market) < c.ShardCount() == Max(1, c.requestedShards)
  {
  }

  /** An item together with the number of the message it came from; the program never looks at the number. */
  datatype Tagged<T> = Tagged(item: T, id: nat)

  datatype Sink =
    | SinkReady
    | SinkHolding(ref: FrameRef, id: nat)      // slot acquired
    | SinkFilled(ref: FrameRef, id: nat)       // frame written, handle being pushed
    | SinkRefused(ref: FrameRef, id: nat)      // queue was full, slot to be given back

  datatype Pump =
    | PumpReady                                                 // popping
    | PumpCarrying(ref: FrameRef, id: nat)                      // handle popped
    | PumpDispatching(ref: FrameRef, id: nat, event: RoutedEvent) // event being pushed to its shard
    | PumpDone(ref: FrameRef, id: nat)                          // routed or dropped, slot to be released

  datatype Fate = SinkDropped | WithSink | Queued | WithPump | RouteDropped | InShard(k: nat) | Delivered(k: nat)

  type FrameRing = R.Ring<Tagged<FrameRef>>
  type EventRing = R.Ring<Tagged<RoutedEvent>>

  /** `log` lists all messages offered to the sink; `fate` says for each where it is now. */
  datatype State = State(
    pool: Pool,
    frames: FrameRing,
    shards: seq<EventRing>,
    sink: Sink,
    pump: Pump,
    log: seq<string>,
    fate: seq<Fate>,
    sinkDropped: nat,
    routeSuccess: nat,
    routeDrop: nat,
    releaseFailures: nat)

  datatype Action = Offer(payload: string) | SinkStep(view: nat) | PumpStep(view: nat) | ShardStep(k: nat, view: nat)

  const NO_REF := FrameRef(0, 0, 0)
  const NO_EVENT := RoutedEvent(0, "", None, "")

  function Initial(c: Config): State {
    State(NewPool(c.poolCapacity), R.NewRing(c.queueCapacity, Tagged(NO_REF, 0)),
          seq(c.ShardCount(), i => R.NewRing(c.shardQueueCapacity, Tagged(NO_EVENT, 0))),
          SinkReady, PumpReady, [], [], 0, 0, 0, 0)
  }

  /** The data structures are in working order; nothing yet about how they fit together. */
  ghost predicate Mechanics(c: Config, s: State) {
    && PoolInvariant(s.pool)
    && R.RingInvariant(s.frames)
    && |s.shards| == c.ShardCount()
    && (forall k :: 0 <= k < |s.shards| ==> R.RingInvariant(s.shards[k]))
    && |s.fate| == |s.log|
    && (!s.sink.SinkReady? ==> s.sink.id < |s.log|)
    && (!s.pump.PumpReady? ==> s.pump.id < |s.log|)
    && (s.pump.PumpDispatching? ==> s.pump.event.shard < |s.shards|)
  }

  // ---------------------------------------------------------------- the sink thread

  function OfferMessage(s: State, payload: string): State
    requires PoolInvariant(s.pool)
  {
    var s1 := s.(log := s.log + [payload]);
    var (p, ref) := Acquire(s.pool);
    if ref.None? then s1.(fate := s.fate + [SinkDropped], sinkDropped := s.sinkDropped + 1)
    else s1.(pool := p, fate := s.fate + [WithSink], sink := SinkHolding(ref.value, |s.log|))
  }

  function DropAtSink(s: State, id: nat): State
    requires id < |s.fate|
  {
    s.(fate := s.fate[id := SinkDropped], sinkDropped := s.sinkDropped + 1, sink := SinkReady)
  }

  function FillFrame(c: Config, s: State): State
    requires Mechanics(c, s) && s.sink.SinkHolding?
  {
    var ref, id := s.sink.ref, s.sink.id;
    if !Live(s.pool, ref) then DropAtSink(s.(pool := Release(s.pool, ref).0), id)
    else s.(pool := Write(s.pool, ref, c.SinkFrame(s.log[id])),
            sink := SinkFilled(ref.(payloadSize := |s.log[id]| % UINT32_SIZE), id))
  }

  /** The next step of `try_push` on the frame queue. */
  function PushHandle(c: Config, s: State, view: nat): State
    requires Mechanics(c, s) && s.sink.SinkFilled?
  {
    var ref, id := s.sink.ref, s.sink.id;
    match s.frames.producer
    case PIdle => s.(frames := R.Next(s.frames, R.LoadHead(Tagged(ref, id))))
    case PLoaded(_, _) =>
      if !(s.frames.tailSeen <= view <= |s.frames.popped|) then s
      else
        var r := R.Next(s.frames, R.LoadTailView(view));
        s.(frames := r, sink := if r.producer.PIdle? then SinkRefused(ref, id) else s.sink)
    case PChecked(_, _) => s.(frames := R.Next(s.frames, R.WriteSlot))
    case PWritten(_, _) =>
      s.(frames := R.Next(s.frames, R.PublishHead), sink := SinkReady, fate := s.fate[id := Queued])
  }

  function GiveBack(c: Config, s: State): State
    requires Mechanics(c, s) && s.sink.SinkRefused?
  {
    DropAtSink(s.(pool := Release(s.pool, s.sink.ref).0), s.sink.id)
  }

  // ---------------------------------------------------------------- the pump thread

  /** The next step of `try_pop` on the frame queue. */
  function PopHandle(c: Config, s: State, view: nat): State
    requires Mechanics(c, s) && s.pump.PumpReady?
  {
    match s.frames.consumer
    case CIdle => s.(frames := R.Next(s.frames, R.LoadTail))
    case CLoaded(_) =>
      if !(s.frames.headSeen <= view <= |s.frames.pushed|) then s
      else s.(frames := R.Next(s.frames, R.LoadHeadView(view)))
    case CChecked(_) => s.(frames := R.Next(s.frames, R.ReadSlot))
    case CRead(_, t) =>
      if t.id >= |s.fate| then s
      else s.(frames := R.Next(s.frames, R.PublishTail), pump := PumpCarrying(t.item, t.id),
              fate := s.fate[t.id := WithPump])
  }

  function DropAtRoute(s: State): State
    requires !s.pump.PumpReady? && s.pump.id < |s.fate|
  {
    s.(fate := s.fate[s.pump.id := RouteDropped], routeDrop := s.routeDrop + 1, pump := PumpDone(s.pump.ref, s.pump.id))
  }

  function Route(c: Config, s: State): State
    requires Mechanics(c, s) && s.pump.PumpCarrying?
  {
    var ref, id := s.pump.ref, s.pump.id;
    if !Live(s.pool, ref) then DropAtRoute(s)
    else
      var frame := s.pool.frames[ref.slot];
      match c.decode(frame)
      case None => DropAtRoute(s)
      case Some(f) =>
        var event := RoutedEvent(c.ShardOf(f.market), f.market, f.seqId, frame.payload);
        if event.shard >= |s.shards| then DropAtRoute(s) else s.(pump := PumpDispatching(ref, id, event))
  }

  /** The next step of `try_push` on the queue of the event's shard. */
  function Dispatch(c: Config, s: State, view: nat): State
    requires Mechanics(c, s) && s.pump.PumpDispatching?
  {
    var k, item := s.pump.event.shard, Tagged(s.pump.event, s.pump.id);
    var r := s.shards[k];
    match r.producer
    case PIdle => s.(shards := s.shards[k := R.Next(r, R.LoadHead(item))])
    case PLoaded(_, _) =>
      if !(r.tailSeen <= view <= |r.popped|) then s
      else
        var r' := R.Next(r, R.LoadTailView(view));
        var s1 := s.(shards := s.shards[k := r']);
        if r'.producer.PIdle? then DropAtRoute(s1) else s1
    case PChecked(_, _) => s.(shards := s.shards[k := R.Next(r, R.WriteSlot)])
    case PWritten(_, _) =>
      s.(shards := s.shards[k := R.Next(r, R.PublishHead)], fate := s.fate[s.pump.id := InShard(k)],
         routeSuccess := s.routeSuccess + 1, pump := PumpDone(s.pump.ref, s.pump.id))
  }

  function ReleaseFrame(c: Config, s: State): State
    requires Mechanics(c, s) && s.pump.PumpDone?
  {
    var (p, ok) := Release(s.pool, s.pump.ref);
    s.(pool := p, pump := PumpReady, releaseFailures := if ok then s.releaseFailures else s.releaseFailures + 1)
  }

  // ---------------------------------------------------------------- a shard thread

  function PopEvent(c: Config, s: State, k: nat, view: nat): State
    requires Mechanics(c, s) && k < |s.shards|
  {
    var r := s.shards[k];
    match r.consumer
    case CIdle => s.(shards := s.shards[k := R.Next(r, R.LoadTail)])
    case CLoaded(_) =>
      if !(r.headSeen <= view <= |r.pushed|) then s
      else s.(shards := s.shards[k := R.Next(r, R.LoadHeadView(view))])
    case CChecked(_) => s.(shards := s.shards[k := R.Next(r, R.ReadSlot)])
    case CRead(_, t) =>
      if t.id >= |s.fate| then s
      else s.(shards := s.shards[k := R.Next(r, R.PublishTail)], fate := s.fate[t.id := Delivered(k)])
  }

  // ---------------------------------------------------------------- one step of the system

  function SinkAdvance(c: Config, s: State, view: nat): State
    requires Mechanics(c, s)
  {
    match s.sink
    case SinkReady => s
    case SinkHolding(_, _) => FillFrame(c, s)
    case SinkFilled(_, _) => PushHandle(c, s, view)
    case SinkRefused(_, _) => GiveBack(c, s)
  }

  function PumpAdvance(c: Config, s: State, view: nat): State
    requires Mechanics(c, s)
  {
    match s.pump
    case PumpReady => PopHandle(c, s, view)
    case PumpCarrying(_, _) => Route(c, s)
    case PumpDispatching(_, _, _) => Dispatch(c, s, view)
    case PumpDone(_, _) => ReleaseFrame(c, s)
  }

  function Step(c: Config, s: State, a: Action): State
    requires Mechanics(c, s)
  {
    match a
    case Offer(payload) => if s.sink.SinkReady? then OfferMessage(s, payload) else s
    case SinkStep(view) => SinkAdvance(c, s, view)
    case PumpStep(view) => PumpAdvance(c, s, view)
    case ShardStep(k, view) => if k < |s.shards| then PopEvent(c, s, k, view) else s
  }
}
