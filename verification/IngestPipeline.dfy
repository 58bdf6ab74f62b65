/**
 The ingest path as the program's objects: sink, sharded dispatch and pump, each call run to its end. Between calls
 the pipeline is a queue of messages: pushing appends to it, pumping moves its front to the shards in order. The
 interleaved form of the same code is `PipelineMachine`.
 */
module IngestPipeline {
  import opened MarketTypes
  import opened FramePool
  import opened SpscRing
  import opened PipelineMachine

  // ---------------------------------------------------------------- handles and the pool, on values

  /** The queued handles are live, on different slots, and hold every slot that is in use. */
  ghost predicate Linked(p: Pool, refs: seq<FrameRef>) {
    && PoolInvariant(p)
    && (forall i :: 0 <= i < |refs| ==> Live(p, refs[i]))
    && (forall i, j :: 0 <= i < j < |refs| ==> refs[i].slot != refs[j].slot)
    && |p.free| + |refs| == |p.inUse|
  }

  /** The frames behind some handles. */
  ghost function FramesOf(p: Pool, refs: seq<FrameRef>): seq<RawFrame>
    requires Linked(p, refs)
  {
    seq(|refs|, i requires 0 <= i < |refs| => p.frames[refs[i].slot])
  }

  /** The pool after taking a slot and writing a frame into it. */
  ghost function Filled(p: Pool, frame: RawFrame): (p': Pool)
    requires PoolInvariant(p) && p.free != []
    ensures PoolInvariant(p')
  {
    AcquireKeeps(p);
    Write(Acquire(p).0, Acquire(p).1.value, frame)
  }

  lemma FilledSlot(p: Pool, refs: seq<FrameRef>, frame: RawFrame)
    requires Linked(p, refs) && p.free != []
    ensures var ref := Acquire(p).1.value;
            var p' := Filled(p, frame);
            && PoolInvariant(p') && Live(p', ref) && p'.frames[ref.slot] == frame
            && |p'.free| == |p.free| - 1 && |p'.inUse| == |p.inUse|
            && (forall i :: 0 <= i < |refs| ==>
                  refs[i].slot != ref.slot && Live(p', refs[i]) && p'.frames[refs[i].slot] == p.frames[refs[i].slot])
  {
    AcquireKeeps(p);
    var ref := Acquire(p).1.value;
    assert ref.slot in p.free;
  }

  lemma PushLinks(p: Pool, refs: seq<FrameRef>, frame: RawFrame, size: nat)
    requires Linked(p, refs) && p.free != []
    ensures var ref := Acquire(p).1.value.(payloadSize := size);
            && Linked(Filled(p, frame), refs + [ref])
            && FramesOf(Filled(p, frame), refs + [ref]) == FramesOf(p, refs) + [frame]
  {
    FilledSlot(p, refs, frame);
  }

  lemma ReleaseLinks(p: Pool, ref: FrameRef, refs: seq<FrameRef>)
    requires PoolInvariant(p) && Live(p, ref) && |p.free| + |refs| + 1 == |p.inUse|
    requires forall i :: 0 <= i < |refs| ==> Live(p, refs[i]) && refs[i].slot != ref.slot
    requires forall i, j :: 0 <= i < j < |refs| ==> refs[i].slot != refs[j].slot
    ensures Release(p, ref).1 && Linked(Release(p, ref).0, refs)
    ensures forall i :: 0 <= i < |refs| ==> Release(p, ref).0.frames[refs[i].slot] == p.frames[refs[i].slot]
  {
    ReleaseKeeps(p, ref);
  }

  /** A handle that did not fit the queue goes back, and nothing has changed for the others. */
  lemma RefusalLinks(p: Pool, refs: seq<FrameRef>, frame: RawFrame, size: nat)
    requires Linked(p, refs) && p.free != []
    ensures var (p', ok) := Release(Filled(p, frame), Acquire(p).1.value.(payloadSize := size));
            ok && Linked(p', refs) && FramesOf(p', refs) == FramesOf(p, refs)
  {
    FilledSlot(p, refs, frame);
    ReleaseLinks(Filled(p, frame), Acquire(p).1.value.(payloadSize := size), refs);
  }

  lemma PopLinks(p: Pool, refs: seq<FrameRef>)
    requires Linked(p, refs) && refs != []
    ensures var (p', ok) := Release(p, refs[0]);
            && ok && Linked(p', refs[1..]) && FramesOf(p', refs[1..]) == FramesOf(p, refs)[1..]
            && p.frames[refs[0].slot] == FramesOf(p, refs)[0]
  {
    ReleaseLinks(p, refs[0], refs[1..]);
  }

  // ---------------------------------------------------------------- the sink

  class MessageSink {
    const pool: FramePool
    const queue: SpscQueue<FrameRef>
    const source: string
    var dropped: nat

    ghost predicate Valid()
      reads pool, pool.slots, pool.generations, pool.inUse, queue, queue.buffer
    {
      pool.Valid() && queue.Valid() && Linked(pool.View(), queue.Items())
    }

    /** The messages waiting for the pump, as the frames written for them. */
    ghost function Pending(): seq<RawFrame>
      requires Valid()
      reads pool, pool.slots, pool.generations, pool.inUse, queue, queue.buffer
    {
      FramesOf(pool.View(), queue.Items())
    }

    constructor (poolCapacity: nat, queueCapacity: nat, source: string)
      requires poolCapacity < UINT32_SIZE
      ensures Valid() && Pending() == [] && dropped == 0 && this.source == source
      ensures fresh(pool) && fresh(pool.slots) && fresh(pool.generations) && fresh(pool.inUse) && fresh(queue)
      ensures fresh(queue.buffer)
      ensures pool.slotCount == poolCapacity && queue.capacity == ResolvedCapacity(queueCapacity)
    {
      pool := new FramePool(poolCapacity);
      queue := new SpscQueue(queueCapacity, NO_REF);
      this.source := source;
      dropped := 0;
    }

    /** Accepted exactly when fewer messages wait than the pool has slots and the ring has room for. */
    method PushMessage(message: string) returns (ok: bool)
      requires Valid()
      modifies this`dropped, pool`freeSlots, pool.slots, pool.generations, pool.inUse, queue`head, queue`pushed,
               queue.buffer
      ensures Valid()
      ensures ok <==> |old(Pending())| < pool.slotCount && |old(Pending())| < queue.capacity - 1
      ensures Pending() == if ok then old(Pending()) + [RawFrame(source, message, "", None)] else old(Pending())
      ensures dropped == if ok then old(dropped) else old(dropped) + 1
    {
      ghost var p, refs := pool.View(), queue.Items();
      var frame := RawFrame(source, message, "", None);
      var acquired := FillSlot(frame, p, refs);
      if acquired.None? {
        dropped := dropped + 1;
        return false;
      }
      var ref := acquired.value.(payloadSize := |message| % UINT32_SIZE);
      PushLinks(p, refs, frame, ref.payloadSize);
      RefusalLinks(p, refs, frame, ref.payloadSize);
      ok := queue.TryPush(ref);
      if !ok {
        var released := pool.ReleaseSlot(ref);
        dropped := dropped + 1;
      }
    }

    /** Acquires a slot, if there is one, and writes a frame into it. */
    method FillSlot(frame: RawFrame, ghost p: Pool, ghost refs: seq<FrameRef>) returns (acquired: Option<FrameRef>)
      requires pool.Valid() && p == pool.View() && Linked(p, refs)
      modifies pool`freeSlots, pool.slots, pool.generations, pool.inUse
      ensures pool.Valid() && acquired == Acquire(p).1
      ensures if acquired.None? then p.free == [] && pool.View() == p
              else p.free != [] && pool.View() == Filled(p, frame)
    {
      acquired := pool.AcquireSlot();
      if acquired.Some? {
        FilledSlot(p, refs, frame);
        AcquireKeeps(p);
        var slot := pool.Frame(acquired.value);
        if slot.None? {
          assert false;
        }
        pool.WriteSlot(acquired.value, frame);
      }
    }

    /** The pump has taken `ref` out of the queue and not yet released it. */
    ghost predicate Lent(ref: FrameRef)
      reads pool, pool.slots, pool.generations, pool.inUse, queue, queue.buffer
    {
      pool.Valid() && queue.Valid() && Linked(pool.View(), [ref] + queue.Items())
    }

    /** The frame of the lent handle, then those still queued. */
    ghost function LentFrames(ref: FrameRef): seq<RawFrame>
      requires Lent(ref)
      reads pool, pool.slots, pool.generations, pool.inUse, queue, queue.buffer
    {
      FramesOf(pool.View(), [ref] + queue.Items())
    }

    method Pop() returns (ok: bool, ref: FrameRef, frame: RawFrame)
      requires Valid()
      modifies queue`tail, queue`popped
      ensures ok <==> old(Pending()) != []
      ensures !ok ==> Valid() && Pending() == old(Pending())
      ensures ok ==> Lent(ref) && LentFrames(ref) == old(Pending()) && frame == old(Pending())[0]
    {
      ghost var refs := queue.Items();
      ok, ref := queue.TryPop(NO_REF);
      frame := BLANK_FRAME;
      if ok {
        assert [ref] + queue.Items() == refs && refs[0] == ref;
        assert Live(pool.View(), refs[0]);
        var slot := pool.Frame(ref);
        frame := pool.slots[slot.value];
      }
    }

    method GiveBack(ref: FrameRef) returns (released: bool)
      requires Lent(ref)
      modifies pool`freeSlots, pool.generations, pool.inUse
      ensures Valid() && released
      ensures Pending() == old(LentFrames(ref))[1..]
    {
      PopLinks(pool.View(), [ref] + queue.Items());
      assert ([ref] + queue.Items())[1..] == queue.Items();
      released := pool.ReleaseSlot(ref);
    }
  }

  // ---------------------------------------------------------------- the shard queues

  type EventQueue = SpscQueue<RoutedEvent>

  class ShardedEventDispatch {
    const queues: seq<EventQueue>
    const queueCapacity: nat
    var dropped: nat

    ghost function Footprint(): set<object> {
      (set k | 0 <= k < |queues| :: queues[k] as object) + (set k | 0 <= k < |queues| :: queues[k].buffer as object)
    }

    ghost predicate Valid()
      reads Footprint()
    {
      && this !in Footprint()
      && (forall k :: 0 <= k < |queues| ==> queues[k].Valid() && queues[k].capacity == queueCapacity)
      && (forall j, k :: 0 <= j < k < |queues| ==> queues[j] != queues[k] && queues[j].buffer != queues[k].buffer)
    }

    /** What waits in each shard's queue. */
    ghost function Shards(): seq<seq<RoutedEvent>>
      reads Footprint()
    {
      seq(|queues|, k requires 0 <= k < |queues| reads Footprint() => queues[k].Items())
    }

    constructor (requestedShards: nat, requestedCapacity: nat)
      ensures Valid() && fresh(Footprint()) && dropped == 0
      ensures |queues| == (if requestedShards == 0 then 1 else requestedShards)
      ensures queueCapacity == ResolvedCapacity(requestedCapacity)
      ensures forall k :: 0 <= k < |queues| ==> queues[k].Items() == []
    {
      var built: seq<EventQueue> := [];
      var count := if requestedShards == 0 then 1 else requestedShards;
      while |built| < count
        invariant |built| <= count
        invariant forall k :: 0 <= k < |built| ==> fresh(built[k]) && fresh(built[k].buffer) && built[k].Valid()
        invariant forall k :: 0 <= k < |built| ==>
            built[k].capacity == ResolvedCapacity(requestedCapacity) && built[k].Items() == []
        invariant forall j, k :: 0 <= j < k < |built| ==> built[j] != built[k] && built[j].buffer != built[k].buffer
      {
        var q := new SpscQueue(requestedCapacity, NO_EVENT);
        built := built + [q];
      }
      queues, queueCapacity, dropped := built, ResolvedCapacity(requestedCapacity), 0;
    }

    method Dispatch(event: RoutedEvent) returns (ok: bool)
      requires Valid()
      modifies this`dropped, Footprint()
      ensures Valid()
      ensures (Shards(), ok) == Appended(old(Shards()), event, queueCapacity)
      ensures dropped == if ok then old(dropped) else old(dropped) + 1
    {
      ok := false;
      if event.shard < |queues| {
        ok := PushTo(event.shard, event);
      }
      if !ok {
        CountDrop();
      }
    }

    method CountDrop()
      requires Valid()
      modifies this`dropped
      ensures Valid() && Shards() == old(Shards()) && dropped == old(dropped) + 1
    {
      dropped := dropped + 1;
    }

    method PushTo(shard: nat, event: RoutedEvent) returns (ok: bool)
      requires Valid() && shard < |queues|
      modifies Footprint()
      ensures Valid()
      ensures ok <==> |old(Shards())[shard]| < queueCapacity - 1
      ensures Shards() == if ok then old(Shards())[shard := old(Shards())[shard] + [event]] else old(Shards())
    {
      ok := queues[shard].TryPush(event);
      assert forall k :: 0 <= k < |queues| && k != shard ==> queues[k].Items() == old(queues[k].Items());
    }

    method TryPop(shard: nat) returns (ok: bool, event: RoutedEvent)
      requires Valid()
      modifies Footprint()
      ensures Valid()
      ensures ok <==> shard < |queues| && old(Shards())[shard] != []
      ensures if ok then && old(Shards())[shard] == [event] + Shards()[shard]
                         && Shards() == old(Shards())[shard := Shards()[shard]]
              else Shards() == old(Shards()) && event == NO_EVENT
    {
      if shard >= |queues| {
        return false, NO_EVENT;
      }
      ok, event := queues[shard].TryPop(NO_EVENT);
    }
  }

  /** Appends an event to its shard's queue, if there is such a shard and it has room. */
  function Appended(shards: seq<seq<RoutedEvent>>, event: RoutedEvent, capacity: nat): (seq<seq<RoutedEvent>>, bool) {
    if event.shard < |shards| && |shards[event.shard]| < capacity - 1 then
      (shards[event.shard := shards[event.shard] + [event]], true)
    else (shards, false)
  }

  // ---------------------------------------------------------------- the pump

  /** Decodes a frame and appends it to the queue of its market's shard. */
  function Routed(c: Config, shards: seq<seq<RoutedEvent>>, frame: RawFrame, capacity: nat)
    : (seq<seq<RoutedEvent>>, bool)
  {
    match c.decode(frame)
    case None => (shards, false)
    case Some(f) => Appended(shards, RoutedEvent(c.ShardOf(f.market), f.market, f.seqId, frame.payload), capacity)
  }

  /** All of `frames` in order, with the number that reached a shard. */
  function RoutedAll(c: Config, shards: seq<seq<RoutedEvent>>, frames: seq<RawFrame>, capacity: nat)
    : (r: (seq<seq<RoutedEvent>>, nat))
    ensures r.1 <= |frames|
  {
    if frames == [] then (shards, 0)
    else
      var before := RoutedAll(c, shards, frames[..|frames| - 1], capacity);
      var after := Routed(c, before.0, frames[|frames| - 1], capacity);
      (after.0, before.1 + if after.1 then 1 else 0)
  }

  class LivePipeline {
    const config: Config
    const sink: MessageSink
    const dispatch: ShardedEventDispatch
    var framesPumped: nat
    var routeSuccess: nat
    var routeDrop: nat
    var releaseFailures: nat

    ghost predicate Valid()
      reads sink.pool, sink.pool.slots, sink.pool.generations, sink.pool.inUse, sink.queue, sink.queue.buffer
      reads dispatch.Footprint()
    {
      sink.Valid() && dispatch.Valid() && Apart()
    }

    /** The shard queues share nothing with the frame queue or the pool. */
    ghost predicate Apart() {
      {this, sink.pool, sink.pool.slots, sink.pool.generations, sink.pool.inUse, sink.queue,
       sink.queue.buffer} !! dispatch.Footprint()
    }

    /** Wires a sink and a dispatch that share nothing. */
    constructor (config: Config, sink: MessageSink, dispatch: ShardedEventDispatch)
      requires sink.Valid() && dispatch.Valid()
      requires {sink.pool, sink.pool.slots, sink.pool.generations, sink.pool.inUse, sink.queue,
                sink.queue.buffer} !! dispatch.Footprint()
      ensures Valid() && this.config == config && this.sink == sink && this.dispatch == dispatch
      ensures framesPumped == routeSuccess == routeDrop == releaseFailures == 0
    {
      this.config, this.sink, this.dispatch := config, sink, dispatch;
      framesPumped, routeSuccess, routeDrop, releaseFailures := 0, 0, 0, 0;
    }

    method Route(frame: RawFrame) returns (ok: bool)
      requires dispatch.Valid()
      modifies dispatch`dropped, dispatch.Footprint()
      ensures dispatch.Valid()
      ensures (dispatch.Shards(), ok) == Routed(config, old(dispatch.Shards()), frame, dispatch.queueCapacity)
    {
      var fields := config.decode(frame);
      if fields.None? {
        return false;
      }
      var f := fields.value;
      ok := dispatch.Dispatch(RoutedEvent(config.ShardOf(f.market), f.market, f.seqId, frame.payload));
    }

    /** One turn of the pump: pop a handle, route its frame, release its slot. */
    method PumpOne(ghost pending: seq<RawFrame>, ghost shards: seq<seq<RoutedEvent>>)
      returns (popped: bool, routed: bool, released: bool)
      requires Valid() && pending == sink.Pending() && shards == dispatch.Shards()
      modifies sink.queue`tail, sink.queue`popped, sink.pool`freeSlots, sink.pool.generations, sink.pool.inUse
      modifies dispatch`dropped, dispatch.Footprint()
      ensures Valid()
      ensures popped <==> pending != []
      ensures !popped ==> sink.Pending() == pending && dispatch.Shards() == shards
      ensures popped ==> released && sink.Pending() == pending[1..]
      ensures popped ==> (dispatch.Shards(), routed) == Routed(config, shards, pending[0], dispatch.queueCapacity)
    {
      var ref, frame;
      popped, ref, frame := PopFirst(pending, shards);
      if !popped {
        return false, false, false;
      }
      routed := RouteLent(ref, frame, pending);
      released := ReturnLent(ref, pending, dispatch.Shards());
    }

    /** Popping leaves the shard queues alone. */
    method PopFirst(ghost pending: seq<RawFrame>, ghost shards: seq<seq<RoutedEvent>>)
      returns (popped: bool, ref: FrameRef, frame: RawFrame)
      requires Valid() && pending == sink.Pending() && shards == dispatch.Shards()
      modifies sink.queue`tail, sink.queue`popped
      ensures dispatch.Valid() && Apart() && dispatch.Shards() == shards && (popped <==> pending != [])
      ensures if popped then sink.Lent(ref) && sink.LentFrames(ref) == pending && frame == pending[0]
              else Valid() && sink.Pending() == pending
    {
      popped, ref, frame := sink.Pop();
    }

    /** Routing leaves the pool and the frame queue alone. */
    method RouteLent(ref: FrameRef, frame: RawFrame, ghost frames: seq<RawFrame>) returns (routed: bool)
      requires sink.Lent(ref) && dispatch.Valid() && Apart() && frames == sink.LentFrames(ref)
      modifies dispatch`dropped, dispatch.Footprint()
      ensures sink.Lent(ref) && dispatch.Valid() && frames == sink.LentFrames(ref)
      ensures (dispatch.Shards(), routed) == Routed(config, old(dispatch.Shards()), frame, dispatch.queueCapacity)
    {
      routed := Route(frame);
    }

    /** Releasing leaves the shard queues alone. */
    method ReturnLent(ref: FrameRef, ghost frames: seq<RawFrame>, ghost shards: seq<seq<RoutedEvent>>)
      returns (released: bool)
      requires sink.Lent(ref) && dispatch.Valid() && Apart() && shards == dispatch.Shards()
      requires frames == sink.LentFrames(ref)
      modifies sink.pool`freeSlots, sink.pool.generations, sink.pool.inUse
      ensures Valid() && released && sink.Pending() == frames[1..] && dispatch.Shards() == shards
    {
      released := sink.GiveBack(ref);
    }

    /** Moves up to `maxFrames` messages to the shards, in order; no slot is lost. */
    method PumpIngest(maxFrames: nat) returns (popped: nat)
      requires Valid()
      modifies this, sink.queue`tail, sink.queue`popped, sink.pool`freeSlots, sink.pool.generations, sink.pool.inUse
      modifies dispatch`dropped, dispatch.Footprint()
      ensures Valid()
      ensures popped == Min(maxFrames, |old(sink.Pending())|) && sink.Pending() == old(sink.Pending())[popped..]
      ensures (dispatch.Shards(), routeSuccess - old(routeSuccess))
              == RoutedAll(config, old(dispatch.Shards()), old(sink.Pending())[..popped], dispatch.queueCapacity)
      ensures framesPumped - old(framesPumped) == popped
      ensures (routeSuccess - old(routeSuccess)) + (routeDrop - old(routeDrop)) == popped
      ensures releaseFailures == old(releaseFailures)
    {
      var success, drop, failures;
      popped, success, drop, failures := PumpLoop(maxFrames, sink.Pending(), dispatch.Shards());
      AddCounts(popped, success, drop, failures);
    }

    method AddCounts(popped: nat, success: nat, drop: nat, failures: nat)
      requires Valid()
      modifies this
      ensures Valid() && sink.Pending() == old(sink.Pending()) && dispatch.Shards() == old(dispatch.Shards())
      ensures framesPumped == old(framesPumped) + popped && routeSuccess == old(routeSuccess) + success
      ensures routeDrop == old(routeDrop) + drop && releaseFailures == old(releaseFailures) + failures
    {
      framesPumped := framesPumped + popped;
      routeSuccess := routeSuccess + success;
      routeDrop := routeDrop + drop;
      releaseFailures := releaseFailures + failures;
    }

    method PumpLoop(maxFrames: nat, ghost pending: seq<RawFrame>, ghost shards: seq<seq<RoutedEvent>>)
      returns (popped: nat, success: nat, drop: nat, failures: int)
      requires Valid() && pending == sink.Pending() && shards == dispatch.Shards()
      modifies sink.queue`tail, sink.queue`popped, sink.pool`freeSlots, sink.pool.generations, sink.pool.inUse
      modifies dispatch`dropped, dispatch.Footprint()
      ensures Valid()
      ensures popped == Min(maxFrames, |pending|) && sink.Pending() == pending[popped..]
      ensures (dispatch.Shards(), success) == RoutedAll(config, shards, pending[..popped], dispatch.queueCapacity)
      ensures success + drop == popped && failures == 0
    {
      popped, success, drop, failures := 0, 0, 0, 0;
      while popped < maxFrames
        invariant popped <= maxFrames && Pumped(pending, shards, popped, success)
        invariant success + drop == popped && failures == 0
      {
        var more, routed, released := PumpNext(pending, shards, popped, success);
        if !more {
          break;
        }
        popped := popped + 1;
        if routed {
          success := success + 1;
        } else {
          drop := drop + 1;
        }
        if !released {
          failures := failures + 1;
        }
      }
    }

    /** The first `n` of the pending frames have gone to the shards. */
    ghost predicate Pumped(pending: seq<RawFrame>, shards: seq<seq<RoutedEvent>>, n: nat, success: nat)
      reads sink.pool, sink.pool.slots, sink.pool.generations, sink.pool.inUse, sink.queue, sink.queue.buffer
      reads dispatch.Footprint()
    {
      && Valid() && n <= |pending| && sink.Pending() == pending[n..]
      && (dispatch.Shards(), success) == RoutedAll(config, shards, pending[..n], dispatch.queueCapacity)
    }

    method PumpNext(ghost pending: seq<RawFrame>, ghost shards: seq<seq<RoutedEvent>>, ghost n: nat, ghost success: nat)
      returns (more: bool, routed: bool, released: bool)
      requires Pumped(pending, shards, n, success)
      modifies sink.queue`tail, sink.queue`popped, sink.pool`freeSlots, sink.pool.generations, sink.pool.inUse
      modifies dispatch`dropped, dispatch.Footprint()
      ensures more <==> n < |pending|
      ensures if more then released && Pumped(pending, shards, n + 1, if routed then success + 1 else success)
              else Pumped(pending, shards, n, success)
    {
      ghost var rest, now, capacity := sink.Pending(), dispatch.Shards(), dispatch.queueCapacity;
      more, routed, released := PumpOne(rest, now);
      RouteOneMore(config, shards, pending, n, capacity, now, success, rest, dispatch.Shards(), routed);
    }
  }

  lemma RouteOneMore(c: Config, shards: seq<seq<RoutedEvent>>, frames: seq<RawFrame>, n: nat, capacity: nat,
                     before: seq<seq<RoutedEvent>>, success: nat, rest: seq<RawFrame>, after: seq<seq<RoutedEvent>>,
                     ok: bool)
    requires n <= |frames| && rest == frames[n..]
    requires (before, success) == RoutedAll(c, shards, frames[..n], capacity)
    requires rest != [] ==> (after, ok) == Routed(c, before, rest[0], capacity)
    ensures rest != [] ==>
              && n < |frames| && rest[1..] == frames[n + 1..]
              && RoutedAll(c, shards, frames[..n + 1], capacity) == (after, if ok then success + 1 else success)
  {
    if rest != [] {
      assert frames[..n + 1][..n] == frames[..n];
    }
  }
}
