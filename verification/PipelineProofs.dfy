/** Slot ownership, order and accounting of the ingest pipeline, in every interleaving. */
module PipelineProofs {
  import opened MarketTypes
  import opened FramePool
  import opened PipelineMachine
  import R = SpscRing

  // ---------------------------------------------------------------- how the parts fit together

  /** Ring sides that are under way belong to the thread whose program counter says so. */
  ghost predicate Links(s: State) {
    && (s.frames.producer.PIdle?
        || (s.sink.SinkFilled? && s.frames.producer.item == Tagged(s.sink.ref, s.sink.id)))
    && (s.pump.PumpReady? || s.frames.consumer.CIdle?)
    && (forall k :: 0 <= k < |s.shards| ==> ShardLink(s, k))
  }

  ghost predicate ShardLink(s: State, k: nat)
    requires k < |s.shards|
  {
    s.shards[k].producer.PIdle?
    || (s.pump.PumpDispatching? && s.pump.event.shard == k
        && s.shards[k].producer.item == Tagged(s.pump.event, s.pump.id))
  }

  function Queue(s: State): seq<Tagged<FrameRef>> {
    R.Contents(s.frames)
  }

  function SlotsOf(ts: seq<Tagged<FrameRef>>): seq<nat> {
    seq(|ts|, i requires 0 <= i < |ts| => ts[i].item.slot)
  }

  function SinkSlots(s: State): multiset<nat> {
    if s.sink.SinkReady? then multiset{} else multiset{s.sink.ref.slot}
  }

  function PumpSlots(s: State): multiset<nat> {
    if s.pump.PumpReady? then multiset{} else multiset{s.pump.ref.slot}
  }

  /** Every place a slot can be, with multiplicity. */
  function Holders(s: State): multiset<nat> {
    multiset(s.pool.free) + SinkSlots(s) + multiset(SlotsOf(Queue(s))) + PumpSlots(s)
  }

  function AllSlots(n: nat): seq<nat> {
    seq(n, i => i)
  }

  /** The handle is live and its frame is the one written for message `id`. */
  ghost predicate Carries(c: Config, s: State, ref: FrameRef, id: nat)
    requires PoolInvariant(s.pool)
  {
    Live(s.pool, ref) && id < |s.log| && s.pool.frames[ref.slot] == c.SinkFrame(s.log[id])
  }

  ghost predicate QueueCarries(c: Config, s: State)
    requires PoolInvariant(s.pool)
  {
    forall i :: 0 <= i < |Queue(s)| ==> Carries(c, s, Queue(s)[i].item, Queue(s)[i].id)
  }

  ghost predicate SinkCarries(c: Config, s: State)
    requires PoolInvariant(s.pool)
  {
    && (!s.sink.SinkReady? ==> Live(s.pool, s.sink.ref))
    && (s.sink.SinkFilled? ==> Carries(c, s, s.sink.ref, s.sink.id))
  }

  ghost predicate PumpCarries(c: Config, s: State)
    requires PoolInvariant(s.pool)
  {
    && (!s.pump.PumpReady? ==> Live(s.pool, s.pump.ref))
    && (s.pump.PumpCarrying? ==> Carries(c, s, s.pump.ref, s.pump.id))
    && (s.pump.PumpDispatching? ==> s.pump.id < |s.log| && c.Routed(s.log[s.pump.id]) == Some(s.pump.event))
  }

  /** Every slot is held exactly once, and every held handle is good for its holder. */
  ghost predicate Ownership(c: Config, s: State)
    requires PoolInvariant(s.pool)
  {
    && |s.pool.inUse| == c.poolCapacity
    && Holders(s) == multiset(AllSlots(c.poolCapacity))
    && QueueCarries(c, s) && SinkCarries(c, s) && PumpCarries(c, s)
    && s.releaseFailures == 0
  }

  ghost predicate Sound(c: Config, s: State) {
    Mechanics(c, s) && Links(s) && Ownership(c, s)
  }

  // ---------------------------------------------------------------- slots are held once

  lemma {:induction false} AllSlotsOnce(n: nat, x: nat)
    ensures multiset(AllSlots(n))[x] == if x < n then 1 else 0
  {
    if n > 0 {
      AllSlotsOnce(n - 1, x);
      assert AllSlots(n) == AllSlots(n - 1) + [n - 1];
    }
  }

  lemma HeldOnce(c: Config, s: State, x: nat)
    requires PoolInvariant(s.pool) && Ownership(c, s)
    ensures multiset(s.pool.free)[x] + SinkSlots(s)[x] + multiset(SlotsOf(Queue(s)))[x] + PumpSlots(s)[x]
            == if x < c.poolCapacity then 1 else 0
  {
    AllSlotsOnce(c.poolCapacity, x);
    assert Holders(s)[x] == multiset(AllSlots(c.poolCapacity))[x];
  }

  lemma QueuedSlot(ts: seq<Tagged<FrameRef>>, i: nat)
    requires i < |ts|
    ensures ts[i].item.slot in multiset(SlotsOf(ts))
  {
    assert SlotsOf(ts)[i] == ts[i].item.slot;
  }

  lemma SlotsAppend(ts: seq<Tagged<FrameRef>>, t: Tagged<FrameRef>)
    ensures multiset(SlotsOf(ts + [t])) == multiset(SlotsOf(ts)) + multiset{t.item.slot}
    ensures multiset(SlotsOf([t] + ts)) == multiset(SlotsOf(ts)) + multiset{t.item.slot}
  {
    assert SlotsOf(ts + [t]) == SlotsOf(ts) + [t.item.slot];
    assert SlotsOf([t] + ts) == [t.item.slot] + SlotsOf(ts);
  }

  /** The slot in the sink's hand is neither queued nor with the pump; same for the pump's. */
  lemma HandsAreDistinct(c: Config, s: State)
    requires PoolInvariant(s.pool) && Ownership(c, s)
    ensures !s.sink.SinkReady? && !s.pump.PumpReady? ==> s.sink.ref.slot != s.pump.ref.slot
    ensures !s.sink.SinkReady? ==> forall i :: 0 <= i < |Queue(s)| ==> Queue(s)[i].item.slot != s.sink.ref.slot
    ensures !s.pump.PumpReady? ==> forall i :: 0 <= i < |Queue(s)| ==> Queue(s)[i].item.slot != s.pump.ref.slot
  {
    if !s.sink.SinkReady? {
      HeldOnce(c, s, s.sink.ref.slot);
    }
    if !s.pump.PumpReady? {
      HeldOnce(c, s, s.pump.ref.slot);
    }
    forall i | 0 <= i < |Queue(s)|
      ensures !s.sink.SinkReady? ==> Queue(s)[i].item.slot != s.sink.ref.slot
      ensures !s.pump.PumpReady? ==> Queue(s)[i].item.slot != s.pump.ref.slot
    {
      QueuedSlot(Queue(s), i);
    }
  }

  // ---------------------------------------------------------------- sink steps

  /** Queued handles do not notice a change to a slot that is not queued. */
  lemma QueueStays(c: Config, s: State, s': State, x: nat)
    requires PoolInvariant(s.pool) && PoolInvariant(s'.pool) && QueueCarries(c, s)
    requires Queue(s') == Queue(s) && s.log <= s'.log
    requires |s'.pool.inUse| == |s.pool.inUse|
    requires forall y :: 0 <= y < |s.pool.inUse| && y != x ==>
               && s'.pool.frames[y] == s.pool.frames[y] && s'.pool.inUse[y] == s.pool.inUse[y]
               && s'.pool.generations[y] == s.pool.generations[y]
    requires forall i :: 0 <= i < |Queue(s)| ==> Queue(s)[i].item.slot != x
    ensures QueueCarries(c, s')
  {
    forall i | 0 <= i < |Queue(s')|
      ensures Carries(c, s', Queue(s')[i].item, Queue(s')[i].id)
    {
      assert Carries(c, s, Queue(s)[i].item, Queue(s)[i].id);
    }
  }

  lemma FreeSlotNotQueued(c: Config, s: State, x: nat)
    requires PoolInvariant(s.pool) && Ownership(c, s) && x in s.pool.free
    ensures SinkSlots(s)[x] == 0 && PumpSlots(s)[x] == 0
    ensures forall i :: 0 <= i < |Queue(s)| ==> Queue(s)[i].item.slot != x
  {
    HeldOnce(c, s, x);
    assert x in multiset(s.pool.free);
    forall i | 0 <= i < |Queue(s)|
      ensures Queue(s)[i].item.slot != x
    {
      QueuedSlot(Queue(s), i);
    }
  }

  lemma OfferKeepsOwnership(c: Config, s: State, payload: string)
    requires PoolInvariant(s.pool) && Ownership(c, s) && s.sink.SinkReady?
    ensures PoolInvariant(OfferMessage(s, payload).pool) && Ownership(c, OfferMessage(s, payload))
  {
    var s' := OfferMessage(s, payload);
    var (p, ref) := Acquire(s.pool);
    AcquireKeeps(s.pool);
    assert Queue(s') == Queue(s);
    if ref.Some? {
      var slot := ref.value.slot;
      assert s.pool.free == p.free + [slot];
      FreeSlotNotQueued(c, s, slot);
      QueueStays(c, s, s', slot);
    } else {
      QueueStays(c, s, s', c.poolCapacity);
    }
  }

  lemma OfferKeepsSound(c: Config, s: State, payload: string)
    requires Sound(c, s) && s.sink.SinkReady?
    ensures Sound(c, OfferMessage(s, payload))
  {
    OfferKeepsOwnership(c, s, payload);
    LinksOfShards(s, OfferMessage(s, payload));
  }

  lemma FillKeepsSound(c: Config, s: State)
    requires Sound(c, s) && s.sink.SinkHolding?
    ensures Live(s.pool, s.sink.ref)
    ensures Sound(c, FillFrame(c, s))
  {
    var s' := FillFrame(c, s);
    HandsAreDistinct(c, s);
    LinksOfShards(s, s');
    QueueStays(c, s, s', s.sink.ref.slot);
  }

  /** Ring steps that leave the abstract queue alone leave ownership alone. */
  lemma QuietOwnership(c: Config, s: State, s': State)
    requires PoolInvariant(s.pool) && Ownership(c, s)
    requires s'.pool == s.pool && s'.pump == s.pump && s'.log == s.log && s'.releaseFailures == s.releaseFailures
    requires Queue(s') == Queue(s)
    requires s'.sink == s.sink || (s.sink.SinkFilled? && s'.sink == SinkRefused(s.sink.ref, s.sink.id))
    ensures Ownership(c, s')
  {
    QueueStays(c, s, s', c.poolCapacity);
  }

  lemma LinksOfShards(s: State, s': State)
    requires s'.shards == s.shards
    requires forall k :: 0 <= k < |s.shards| ==> ShardLink(s, k)
    requires s.pump == s'.pump || forall k :: 0 <= k < |s.shards| ==> s.shards[k].producer.PIdle?
    ensures forall k :: 0 <= k < |s'.shards| ==> ShardLink(s', k)
  {
    forall k | 0 <= k < |s'.shards|
      ensures ShardLink(s', k)
    {
      assert ShardLink(s, k);
    }
  }

  lemma PublishHandleKeepsSound(c: Config, s: State)
    requires Sound(c, s) && s.sink.SinkFilled? && s.frames.producer.PWritten?
    ensures Sound(c, PushHandle(c, s, 0))
    ensures Queue(PushHandle(c, s, 0)) == Queue(s) + [Tagged(s.sink.ref, s.sink.id)]
  {
    var s' := PushHandle(c, s, 0);
    R.StepRefinesFifo(s.frames, R.PublishHead);
    var t := Tagged(s.sink.ref, s.sink.id);
    SlotsAppend(Queue(s), t);
    LinksOfShards(s, s');
    forall i | 0 <= i < |Queue(s')|
      ensures Carries(c, s', Queue(s')[i].item, Queue(s')[i].id)
    {
      if i < |Queue(s)| {
        assert Carries(c, s, Queue(s)[i].item, Queue(s)[i].id);
      }
    }
  }

  lemma PushRing(c: Config, s: State, view: nat)
    requires Mechanics(c, s) && Links(s) && s.sink.SinkFilled? && !s.frames.producer.PWritten?
    ensures var s' := PushHandle(c, s, view);
            && R.RingInvariant(s'.frames) && R.Contents(s'.frames) == Queue(s)
            && s'.frames.consumer == s.frames.consumer
            && (s'.frames.producer.PIdle?
                || (s'.sink.SinkFilled? && s'.frames.producer.item == Tagged(s'.sink.ref, s'.sink.id)))
  {
    match s.frames.producer {
      case PIdle => R.StepRefinesFifo(s.frames, R.LoadHead(Tagged(s.sink.ref, s.sink.id)));
      case PLoaded(_, _) =>
        if s.frames.tailSeen <= view <= |s.frames.popped| {
          R.StepRefinesFifo(s.frames, R.LoadTailView(view));
        }
      case PChecked(_, _) => R.StepRefinesFifo(s.frames, R.WriteSlot);
    }
  }

  lemma PushHandleKeepsSound(c: Config, s: State, view: nat)
    requires Sound(c, s) && s.sink.SinkFilled?
    ensures Sound(c, PushHandle(c, s, view))
  {
    if s.frames.producer.PWritten? {
      PublishHandleKeepsSound(c, s);
    } else {
      var s' := PushHandle(c, s, view);
      PushRing(c, s, view);
      LinksOfShards(s, s');
      QuietOwnership(c, s, s');
    }
  }

  lemma GiveBackKeepsSound(c: Config, s: State)
    requires Sound(c, s) && s.sink.SinkRefused?
    ensures Sound(c, GiveBack(c, s))
  {
    var s' := GiveBack(c, s);
    ReleaseKeeps(s.pool, s.sink.ref);
    HandsAreDistinct(c, s);
    LinksOfShards(s, s');
    assert multiset(s.pool.free + [s.sink.ref.slot]) == multiset(s.pool.free) + multiset{s.sink.ref.slot};
    QueueStays(c, s, s', s.sink.ref.slot);
  }

  // ---------------------------------------------------------------- pump steps

  /** Taking the front handle moves one slot from the queue to the pump. */
  lemma TakeHandle(c: Config, s: State)
    requires Sound(c, s) && s.pump.PumpReady? && s.frames.consumer.CRead?
    ensures s.frames.consumer.item.id < |s.log|
    ensures Carries(c, s, s.frames.consumer.item.item, s.frames.consumer.item.id)
    ensures R.RingInvariant(PopHandle(c, s, 0).frames)
    ensures Queue(s) == [s.frames.consumer.item] + Queue(PopHandle(c, s, 0))
  {
    R.StepRefinesFifo(s.frames, R.PublishTail);
    assert Queue(s)[0] == s.frames.consumer.item;
    assert Carries(c, s, Queue(s)[0].item, Queue(s)[0].id);
  }

  lemma QueueTail(c: Config, s: State, s': State, t: Tagged<FrameRef>)
    requires PoolInvariant(s.pool) && QueueCarries(c, s)
    requires s'.pool == s.pool && s'.log == s.log && Queue(s) == [t] + Queue(s')
    ensures QueueCarries(c, s')
    ensures multiset(SlotsOf(Queue(s))) == multiset(SlotsOf(Queue(s'))) + multiset{t.item.slot}
  {
    SlotsAppend(Queue(s'), t);
    forall i | 0 <= i < |Queue(s')|
      ensures Carries(c, s', Queue(s')[i].item, Queue(s')[i].id)
    {
      assert Queue(s')[i] == Queue(s)[i + 1];
      assert Carries(c, s, Queue(s)[i + 1].item, Queue(s)[i + 1].id);
    }
  }

  lemma TakeHandleKeepsSound(c: Config, s: State)
    requires Sound(c, s) && s.pump.PumpReady? && s.frames.consumer.CRead?
    ensures Sound(c, PopHandle(c, s, 0))
  {
    TakeHandle(c, s);
    var s' := PopHandle(c, s, 0);
    QueueTail(c, s, s', s.frames.consumer.item);
    assert forall k :: 0 <= k < |s.shards| ==> ShardLink(s, k) ==> s.shards[k].producer.PIdle?;
    LinksOfShards(s, s');
  }

  lemma PopRing(c: Config, s: State, view: nat)
    requires Mechanics(c, s) && Links(s) && s.pump.PumpReady? && !s.frames.consumer.CRead?
    ensures var s' := PopHandle(c, s, view);
            && R.RingInvariant(s'.frames) && R.Contents(s'.frames) == Queue(s)
            && s'.frames.producer == s.frames.producer
  {
    match s.frames.consumer {
      case CIdle => R.StepRefinesFifo(s.frames, R.LoadTail);
      case CLoaded(_) =>
        if s.frames.headSeen <= view <= |s.frames.pushed| {
          R.StepRefinesFifo(s.frames, R.LoadHeadView(view));
        }
      case CChecked(_) => R.StepRefinesFifo(s.frames, R.ReadSlot);
    }
  }

  lemma PopHandleKeepsSound(c: Config, s: State, view: nat)
    requires Sound(c, s) && s.pump.PumpReady?
    ensures Sound(c, PopHandle(c, s, view))
  {
    if s.frames.consumer.CRead? {
      TakeHandleKeepsSound(c, s);
    } else {
      var s' := PopHandle(c, s, view);
      PopRing(c, s, view);
      LinksOfShards(s, s');
      QuietOwnership(c, s, s');
    }
  }

  /** Changing only the pump's program counter, its slot staying in its hand. */
  lemma PumpMoves(c: Config, s: State, s': State)
    requires Sound(c, s) && Mechanics(c, s') && Links(s')
    requires s'.pool == s.pool && s'.frames == s.frames && s'.sink == s.sink && s'.log == s.log
    requires !s.pump.PumpReady? && !s'.pump.PumpReady? && s'.pump.ref == s.pump.ref && s'.pump.id == s.pump.id
    requires s'.releaseFailures == s.releaseFailures
    requires !s'.pump.PumpCarrying?
    requires s'.pump.PumpDispatching? ==> c.Routed(s.log[s.pump.id]) == Some(s'.pump.event)
    ensures Sound(c, s')
  {
    forall i | 0 <= i < |Queue(s')|
      ensures Carries(c, s', Queue(s')[i].item, Queue(s')[i].id)
    {
      assert Carries(c, s, Queue(s)[i].item, Queue(s)[i].id);
    }
  }

  /** In the pump `frame(ref)` is never null, and routing depends only on the message. */
  lemma RouteKeepsSound(c: Config, s: State)
    requires Sound(c, s) && s.pump.PumpCarrying?
    ensures Live(s.pool, s.pump.ref)
    ensures match c.Routed(s.log[s.pump.id])
            case None => Route(c, s) == DropAtRoute(s)
            case Some(event) => Route(c, s) == s.(pump := PumpDispatching(s.pump.ref, s.pump.id, event))
    ensures Sound(c, Route(c, s))
  {
    var s' := Route(c, s);
    assert Carries(c, s, s.pump.ref, s.pump.id);
    assert forall k :: 0 <= k < |s.shards| ==> ShardLink(s, k) ==> s.shards[k].producer.PIdle?;
    LinksOfShards(s, s');
    PumpMoves(c, s, s');
  }

  /** Replacing one shard's ring, the pump keeping or ending its dispatch to that shard. */
  lemma ShardReplaced(c: Config, s: State, s': State, k: nat)
    requires Mechanics(c, s) && Links(s) && k < |s.shards|
    requires |s'.shards| == |s.shards| && s'.shards == s.shards[k := s'.shards[k]]
    requires s'.pump == s.pump || (s.pump.PumpDispatching? && s.pump.event.shard == k)
    requires R.RingInvariant(s'.shards[k]) && ShardLink(s', k)
    ensures forall j :: 0 <= j < |s'.shards| ==> ShardLink(s', j) && R.RingInvariant(s'.shards[j])
  {
    forall j | 0 <= j < |s'.shards|
      ensures ShardLink(s', j)
    {
      assert ShardLink(s, j);
    }
  }

  lemma DispatchRing(c: Config, s: State, view: nat)
    requires Mechanics(c, s) && Links(s) && s.pump.PumpDispatching?
    ensures var k := s.pump.event.shard;
            var s' := Dispatch(c, s, view);
            && |s'.shards| == |s.shards| && s'.shards == s.shards[k := s'.shards[k]]
            && R.RingInvariant(s'.shards[k]) && ShardLink(s', k)
  {
    var k, item := s.pump.event.shard, Tagged(s.pump.event, s.pump.id);
    var r := s.shards[k];
    assert ShardLink(s, k);
    match r.producer {
      case PIdle => R.StepRefinesFifo(r, R.LoadHead(item));
      case PLoaded(_, _) =>
        if r.tailSeen <= view <= |r.popped| {
          R.StepRefinesFifo(r, R.LoadTailView(view));
        }
      case PChecked(_, _) => R.StepRefinesFifo(r, R.WriteSlot);
      case PWritten(_, _) => R.StepRefinesFifo(r, R.PublishHead);
    }
  }

  lemma DispatchKeepsSound(c: Config, s: State, view: nat)
    requires Sound(c, s) && s.pump.PumpDispatching?
    ensures Sound(c, Dispatch(c, s, view))
  {
    var s' := Dispatch(c, s, view);
    DispatchRing(c, s, view);
    ShardReplaced(c, s, s', s.pump.event.shard);
    PumpMoves(c, s, s');
  }

  /** The pump's release always succeeds. */
  lemma ReleaseFrameKeepsSound(c: Config, s: State)
    requires Sound(c, s) && s.pump.PumpDone?
    ensures Sound(c, ReleaseFrame(c, s))
  {
    var s' := ReleaseFrame(c, s);
    ReleaseKeeps(s.pool, s.pump.ref);
    HandsAreDistinct(c, s);
    assert forall k :: 0 <= k < |s.shards| ==> ShardLink(s, k) ==> s.shards[k].producer.PIdle?;
    LinksOfShards(s, s');
    assert multiset(s.pool.free + [s.pump.ref.slot]) == multiset(s.pool.free) + multiset{s.pump.ref.slot};
    QueueStays(c, s, s', s.pump.ref.slot);
  }

  // ---------------------------------------------------------------- shard steps

  lemma PopEventRing(c: Config, s: State, k: nat, view: nat)
    requires Mechanics(c, s) && Links(s) && k < |s.shards|
    ensures var s' := PopEvent(c, s, k, view);
            && |s'.shards| == |s.shards| && s'.shards == s.shards[k := s'.shards[k]]
            && R.RingInvariant(s'.shards[k]) && ShardLink(s', k)
  {
    var r := s.shards[k];
    assert ShardLink(s, k);
    match r.consumer {
      case CIdle => R.StepRefinesFifo(r, R.LoadTail);
      case CLoaded(_) =>
        if r.headSeen <= view <= |r.pushed| {
          R.StepRefinesFifo(r, R.LoadHeadView(view));
        }
      case CChecked(_) => R.StepRefinesFifo(r, R.ReadSlot);
      case CRead(_, _) => R.StepRefinesFifo(r, R.PublishTail);
    }
  }

  lemma PopEventKeepsSound(c: Config, s: State, k: nat, view: nat)
    requires Sound(c, s) && k < |s.shards|
    ensures Sound(c, PopEvent(c, s, k, view))
  {
    var s' := PopEvent(c, s, k, view);
    PopEventRing(c, s, k, view);
    ShardReplaced(c, s, s', k);
    QuietOwnership(c, s, s');
  }

  // ---------------------------------------------------------------- every run

  lemma SinkKeepsSound(c: Config, s: State, view: nat)
    requires Sound(c, s)
    ensures Sound(c, SinkAdvance(c, s, view))
  {
    match s.sink {
      case SinkReady =>
      case SinkHolding(_, _) => FillKeepsSound(c, s);
      case SinkFilled(_, _) => PushHandleKeepsSound(c, s, view);
      case SinkRefused(_, _) => GiveBackKeepsSound(c, s);
    }
  }

  lemma PumpKeepsSound(c: Config, s: State, view: nat)
    requires Sound(c, s)
    ensures Sound(c, PumpAdvance(c, s, view))
  {
    match s.pump {
      case PumpReady => PopHandleKeepsSound(c, s, view);
      case PumpCarrying(_, _) => RouteKeepsSound(c, s);
      case PumpDispatching(_, _, _) => DispatchKeepsSound(c, s, view);
      case PumpDone(_, _) => ReleaseFrameKeepsSound(c, s);
    }
  }

  lemma StepKeepsSound(c: Config, s: State, a: Action)
    requires Sound(c, s)
    ensures Sound(c, Step(c, s, a))
  {
    match a {
      case Offer(payload) =>
        if s.sink.SinkReady? {
          OfferKeepsSound(c, s, payload);
        }
      case SinkStep(view) => SinkKeepsSound(c, s, view);
      case PumpStep(view) => PumpKeepsSound(c, s, view);
      case ShardStep(k, view) =>
        if k < |s.shards| {
          PopEventKeepsSound(c, s, k, view);
        }
    }
  }

  lemma InitialSound(c: Config)
    ensures Sound(c, Initial(c))
  {
    var s := Initial(c);
    NewPoolInvariant(c.poolCapacity);
    R.NewRingInvariant(c.queueCapacity, Tagged(NO_REF, 0));
    forall k | 0 <= k < |s.shards|
      ensures R.RingInvariant(s.shards[k]) && ShardLink(s, k)
    {
      R.NewRingInvariant(c.shardQueueCapacity, Tagged(NO_EVENT, 0));
    }
    FreeListHoldsAll(c.poolCapacity);
  }

  lemma {:induction false} FreeListHoldsAll(n: nat)
    ensures multiset(NewPool(n).free) == multiset(AllSlots(n))
  {
    if n > 0 {
      FreeListHoldsAll(n - 1);
      assert NewPool(n).free == [n - 1] + NewPool(n - 1).free;
      assert AllSlots(n) == AllSlots(n - 1) + [n - 1];
    }
  }

  /** Any sequence of actions is an interleaving of the threads. */
  ghost function Run(c: Config, s: State, actions: seq<Action>): (s': State)
    requires Sound(c, s)
    ensures Sound(c, s')
    decreases |actions|
  {
    if actions == [] then s
    else StepKeepsSound(c, s, actions[0]); Run(c, Step(c, s, actions[0]), actions[1..])
  }

  /**
   In every reachable state each slot is in exactly one place: the free list, the sink's hand, one position of
   the frame queue, or the pump's hand. So sink writes and pump reads never meet, `frame(ref)` in the pump is
   never null, and no release ever fails.
   */
  lemma SlotOwnership(c: Config, actions: seq<Action>, slot: nat)
    requires slot < c.poolCapacity
    ensures Sound(c, Initial(c))
    ensures var s := Run(c, Initial(c), actions);
            && multiset(s.pool.free)[slot] + SinkSlots(s)[slot] + multiset(SlotsOf(Queue(s)))[slot]
               + PumpSlots(s)[slot] == 1
            && (!s.sink.SinkReady? && !s.pump.PumpReady? ==> s.sink.ref.slot != s.pump.ref.slot)
            && (!s.pump.PumpReady? ==> Live(s.pool, s.pump.ref))
            && (s.pump.PumpCarrying? ==> s.pool.frames[s.pump.ref.slot] == c.SinkFrame(s.log[s.pump.id]))
            && s.releaseFailures == 0
  {
    InitialSound(c);
    var s := Run(c, Initial(c), actions);
    HeldOnce(c, s, slot);
    HandsAreDistinct(c, s);
  }
}
