/** End-to-end order and the fate of every message, in every interleaving of the ingest pipeline. */
module PipelineOrder {
  import opened MarketTypes
  import opened FramePool
  import opened PipelineMachine
  import opened PipelineProofs
  import R = SpscRing

  // ---------------------------------------------------------------- order

  ghost predicate Increasing<T>(ts: seq<Tagged<T>>) {
    forall i, j :: 0 <= i < j < |ts| ==> ts[i].id < ts[j].id
  }

  ghost predicate Below<T>(ts: seq<Tagged<T>>, bound: nat) {
    forall i :: 0 <= i < |ts| ==> ts[i].id < bound
  }

  /** Messages handed to the frame queue so far come before this one. */
  function SinkBound(s: State): nat {
    if s.sink.SinkReady? then |s.log| else s.sink.id
  }

  predicate InHand(s: State) {
    s.pump.PumpCarrying? || s.pump.PumpDispatching?
  }

  /** Messages handed to the shards so far come before this one. */
  function PumpBound(s: State): nat {
    if InHand(s) then s.pump.id
    else if s.frames.popped == [] then 0
    else s.frames.popped[|s.frames.popped| - 1].id + 1
  }

  /** What shard `k` was given: its own markets' messages, routed as the message alone determines, in order. */
  ghost predicate ShardOrder(c: Config, s: State, k: nat)
    requires k < |s.shards|
  {
    && Increasing(s.shards[k].pushed)
    && Below(s.shards[k].pushed, PumpBound(s))
    && forall i :: 0 <= i < |s.shards[k].pushed| ==> Delivery(c, s.log, k, s.shards[k].pushed[i])
  }

  ghost predicate Delivery(c: Config, log: seq<string>, k: nat, t: Tagged<RoutedEvent>) {
    t.id < |log| && c.Routed(log[t.id]) == Some(t.item) && t.item.shard == k
  }

  ghost predicate QueueOrder(s: State) {
    && Increasing(s.frames.pushed)
    && Below(s.frames.pushed, SinkBound(s))
    && (!s.sink.SinkReady? ==> s.sink.id == |s.log| - 1)
    && (InHand(s) ==> s.frames.popped != [] && s.frames.popped[|s.frames.popped| - 1].id == s.pump.id)
  }

  ghost predicate Order(c: Config, s: State) {
    && QueueOrder(s)
    && forall k :: 0 <= k < |s.shards| ==> ShardOrder(c, s, k)
  }

  // ---------------------------------------------------------------- what a step does to the messages

  ghost predicate SameShard(s: State, s': State, k: nat)
    requires k < |s.shards| && k < |s'.shards|
  {
    s'.shards[k].pushed == s.shards[k].pushed && s'.shards[k].popped == s.shards[k].popped
  }

  /** Nothing but possibly shard `k0` changes at the shards. */
  ghost predicate ShardsBut(s: State, s': State, k0: int) {
    && |s'.shards| == |s.shards|
    && forall k :: 0 <= k < |s.shards| && k != k0 ==> SameShard(s, s', k)
  }

  ghost predicate SameQueue(s: State, s': State) {
    s'.frames.pushed == s.frames.pushed && s'.frames.popped == s.frames.popped
  }

  ghost predicate SameSink(s: State, s': State) {
    && s'.sink.SinkReady? == s.sink.SinkReady?
    && (!s.sink.SinkReady? ==> s'.sink.id == s.sink.id)
    && s'.log == s.log && s'.sinkDropped == s.sinkDropped
  }

  ghost predicate SameHand(s: State, s': State) {
    && InHand(s') == InHand(s) && (InHand(s) ==> s'.pump.id == s.pump.id)
    && s'.routeDrop == s.routeDrop && s'.routeSuccess == s.routeSuccess
  }

  ghost predicate Quiet(s: State, s': State) {
    SameQueue(s, s') && SameSink(s, s') && SameHand(s, s') && ShardsBut(s, s', -1) && s'.fate == s.fate
  }

  ghost predicate Offered(s: State, s': State, payload: string) {
    && SameQueue(s, s') && SameHand(s, s') && ShardsBut(s, s', -1)
    && |s.fate| == |s.log| && s'.log == s.log + [payload] && s.sink.SinkReady?
    && (|| (s'.sink.SinkReady? && s'.fate == s.fate + [SinkDropped] && s'.sinkDropped == s.sinkDropped + 1)
        || (!s'.sink.SinkReady? && s'.sink.id == |s.log| && s'.fate == s.fate + [WithSink]
            && s'.sinkDropped == s.sinkDropped))
  }

  ghost predicate LostAtSink(s: State, s': State) {
    && SameQueue(s, s') && SameHand(s, s') && ShardsBut(s, s', -1)
    && !s.sink.SinkReady? && s.sink.id < |s.fate| && s'.sink.SinkReady? && s'.log == s.log
    && s'.fate == s.fate[s.sink.id := SinkDropped] && s'.sinkDropped == s.sinkDropped + 1
  }

  ghost predicate Enqueued(s: State, s': State) {
    && SameHand(s, s') && ShardsBut(s, s', -1)
    && !s.sink.SinkReady? && s.sink.id < |s.fate| && s'.sink.SinkReady? && s'.log == s.log
    && s'.sinkDropped == s.sinkDropped && s'.fate == s.fate[s.sink.id := Queued]
    && s'.frames.popped == s.frames.popped && |s.frames.popped| <= |s.frames.pushed|
    && s'.frames.pushed == s.frames.pushed + [Tagged(s.sink.ref, s.sink.id)]
  }

  ghost predicate Taken(s: State, s': State) {
    && SameSink(s, s') && ShardsBut(s, s', -1) && s'.routeDrop == s.routeDrop && s'.routeSuccess == s.routeSuccess
    && s'.frames.pushed == s.frames.pushed && |s.frames.popped| < |s.frames.pushed|
    && var t := s.frames.pushed[|s.frames.popped|];
       && s.frames.popped == s.frames.pushed[..|s.frames.popped|] && s'.frames.popped == s.frames.popped + [t]
       && !InHand(s) && InHand(s') && s'.pump.id == t.id
       && t.id < |s.fate| && s'.fate == s.fate[t.id := WithPump]
  }

  ghost predicate LostAtRoute(s: State, s': State) {
    && SameQueue(s, s') && SameSink(s, s') && ShardsBut(s, s', -1)
    && InHand(s) && s.pump.id < |s.fate| && !InHand(s')
    && s'.fate == s.fate[s.pump.id := RouteDropped] && s'.routeDrop == s.routeDrop + 1
    && s'.routeSuccess == s.routeSuccess
  }

  ghost predicate Dispatched(c: Config, s: State, s': State, k: nat) {
    && SameQueue(s, s') && SameSink(s, s') && k < |s.shards| && ShardsBut(s, s', k)
    && s.pump.PumpDispatching? && s.pump.id < |s.fate| && !InHand(s')
    && s'.routeDrop == s.routeDrop && s'.routeSuccess == s.routeSuccess + 1
    && s'.fate == s.fate[s.pump.id := InShard(k)]
    && var t := Tagged(s.pump.event, s.pump.id);
       && s'.shards[k].pushed == s.shards[k].pushed + [t] && s'.shards[k].popped == s.shards[k].popped
       && |s.shards[k].popped| <= |s.shards[k].pushed|
       && Delivery(c, s.log, k, t)
  }

  ghost predicate Popped(s: State, s': State, k: nat) {
    && SameQueue(s, s') && SameSink(s, s') && SameHand(s, s') && k < |s.shards| && ShardsBut(s, s', k)
    && s'.shards[k].pushed == s.shards[k].pushed && |s.shards[k].popped| < |s.shards[k].pushed|
    && var t := s.shards[k].pushed[|s.shards[k].popped|];
       && s'.shards[k].popped == s.shards[k].popped + [t]
       && t.id < |s.fate| && s'.fate == s.fate[t.id := Delivered(k)]
  }

  /** Every step of the machine is one of these. */
  ghost predicate Effect(c: Config, s: State, s': State, a: Action) {
    || Quiet(s, s')
    || (a.Offer? && Offered(s, s', a.payload))
    || LostAtSink(s, s')
    || Enqueued(s, s')
    || Taken(s, s')
    || LostAtRoute(s, s')
    || (s.pump.PumpDispatching? && Dispatched(c, s, s', s.pump.event.shard))
    || (a.ShardStep? && Popped(s, s', a.k))
  }

  lemma SinkEffect(c: Config, s: State, a: Action)
    requires Sound(c, s) && a.SinkStep?
    ensures Effect(c, s, SinkAdvance(c, s, a.view), a)
  {
    var s' := SinkAdvance(c, s, a.view);
    match s.sink {
      case SinkReady =>
      case SinkHolding(_, _) =>
        assert Live(s.pool, s.sink.ref);
        assert Quiet(s, s');
      case SinkFilled(_, _) =>
        if s.frames.producer.PWritten? {
          assert Enqueued(s, s');
        } else {
          assert Quiet(s, s');
        }
      case SinkRefused(_, _) =>
        assert LostAtSink(s, s');
    }
  }

  lemma PopHandleEffect(c: Config, s: State, view: nat)
    requires Sound(c, s) && s.pump.PumpReady?
    ensures Quiet(s, PopHandle(c, s, view)) || Taken(s, PopHandle(c, s, view))
  {
    if s.frames.consumer.CRead? {
      TakeHandle(c, s);
    }
  }

  lemma DispatchEffect(c: Config, s: State, view: nat)
    requires Sound(c, s) && s.pump.PumpDispatching?
    ensures var s' := Dispatch(c, s, view);
            Quiet(s, s') || LostAtRoute(s, s') || Dispatched(c, s, s', s.pump.event.shard)
  {
    var s' := Dispatch(c, s, view);
    var k := s.pump.event.shard;
    assert ShardLink(s, k);
    assert |s'.shards| == |s.shards| && forall j :: 0 <= j < |s.shards| && j != k ==> s'.shards[j] == s.shards[j];
    if s.shards[k].producer.PWritten? {
      assert ShardsBut(s, s', k);
      assert Dispatched(c, s, s', k);
    } else {
      assert SameShard(s, s', k);
      assert ShardsBut(s, s', -1);
    }
  }

  lemma RouteEffect(c: Config, s: State)
    requires Sound(c, s) && s.pump.PumpCarrying?
    ensures Quiet(s, Route(c, s)) || LostAtRoute(s, Route(c, s))
  {
    RouteKeepsSound(c, s);
  }

  lemma PumpEffect(c: Config, s: State, a: Action)
    requires Sound(c, s) && a.PumpStep?
    ensures Effect(c, s, PumpAdvance(c, s, a.view), a)
  {
    match s.pump {
      case PumpReady => PopHandleEffect(c, s, a.view);
      case PumpCarrying(_, _) => RouteEffect(c, s);
      case PumpDispatching(_, _, _) => DispatchEffect(c, s, a.view);
      case PumpDone(_, _) => assert Quiet(s, ReleaseFrame(c, s));
    }
  }

  lemma ShardEffect(c: Config, s: State, k: nat, view: nat)
    requires Sound(c, s) && Order(c, s) && k < |s.shards|
    ensures Quiet(s, PopEvent(c, s, k, view)) || Popped(s, PopEvent(c, s, k, view), k)
  {
    if s.shards[k].consumer.CRead? {
      PopTakesEffect(c, s, k, view);
    } else {
      PopIsQuiet(c, s, k, view);
    }
  }

  lemma PopIsQuiet(c: Config, s: State, k: nat, view: nat)
    requires Mechanics(c, s) && k < |s.shards| && !s.shards[k].consumer.CRead?
    ensures Quiet(s, PopEvent(c, s, k, view))
  {
    var s' := PopEvent(c, s, k, view);
    assert |s'.shards| == |s.shards| && forall j :: 0 <= j < |s.shards| && j != k ==> s'.shards[j] == s.shards[j];
    assert SameShard(s, s', k);
  }

  lemma PopTakesEffect(c: Config, s: State, k: nat, view: nat)
    requires Sound(c, s) && Order(c, s) && k < |s.shards| && s.shards[k].consumer.CRead?
    ensures Popped(s, PopEvent(c, s, k, view), k)
  {
    var s', r := PopEvent(c, s, k, view), s.shards[k];
    assert |s'.shards| == |s.shards| && forall j :: 0 <= j < |s.shards| && j != k ==> s'.shards[j] == s.shards[j];
    assert ShardOrder(c, s, k);
    assert Delivery(c, s.log, k, r.pushed[|r.popped|]);
  }

  lemma StepEffect(c: Config, s: State, a: Action)
    requires Sound(c, s) && Order(c, s)
    ensures Effect(c, s, Step(c, s, a), a)
  {
    match a {
      case Offer(payload) =>
        if s.sink.SinkReady? {
          assert Offered(s, Step(c, s, a), payload);
        }
      case SinkStep(_) => SinkEffect(c, s, a);
      case PumpStep(_) => PumpEffect(c, s, a);
      case ShardStep(k, view) =>
        if k < |s.shards| {
          ShardEffect(c, s, k, view);
        }
    }
  }

  // ---------------------------------------------------------------- order is kept

  /** Shards do not notice steps that only raise the bound and extend the log. */
  lemma ShardOrderStays(c: Config, s: State, s': State, k: nat)
    requires k < |s.shards| && k < |s'.shards| && ShardOrder(c, s, k)
    requires s.log <= s'.log && PumpBound(s) <= PumpBound(s') && s'.shards[k].pushed == s.shards[k].pushed
    ensures ShardOrder(c, s', k)
  {
    forall i | 0 <= i < |s.shards[k].pushed|
      ensures Delivery(c, s'.log, k, s.shards[k].pushed[i])
    {
      assert Delivery(c, s.log, k, s.shards[k].pushed[i]);
    }
  }

  lemma ShardOrderGrows(c: Config, s: State, s': State, k: nat)
    requires k < |s.shards| && ShardOrder(c, s, k) && QueueOrder(s) && Dispatched(c, s, s', k)
    ensures ShardOrder(c, s', k)
  {
    var before := s.shards[k].pushed;
    forall i | 0 <= i < |s'.shards[k].pushed|
      ensures Delivery(c, s'.log, k, s'.shards[k].pushed[i])
    {
      if i < |before| {
        assert Delivery(c, s.log, k, before[i]);
      }
    }
  }

  lemma QueueOrderKept(c: Config, s: State, s': State, a: Action)
    requires QueueOrder(s) && Effect(c, s, s', a)
    ensures QueueOrder(s') && PumpBound(s) <= PumpBound(s') && s.log <= s'.log
  {
    if Taken(s, s') {
      var n := |s.frames.popped|;
      if n > 0 {
        assert s.frames.popped[n - 1] == s.frames.pushed[n - 1];
      }
    }
  }

  lemma EffectKeepsOrder(c: Config, s: State, s': State, a: Action)
    requires Order(c, s) && Effect(c, s, s', a)
    ensures Order(c, s')
  {
    QueueOrderKept(c, s, s', a);
    forall k | 0 <= k < |s'.shards|
      ensures ShardOrder(c, s', k)
    {
      assert ShardOrder(c, s, k);
      if s.pump.PumpDispatching? && s.pump.event.shard == k && Dispatched(c, s, s', k) {
        ShardOrderGrows(c, s, s', k);
      } else {
        assert (a.ShardStep? && a.k == k && Popped(s, s', k)) || SameShard(s, s', k);
        ShardOrderStays(c, s, s', k);
      }
    }
  }

  // ---------------------------------------------------------------- fates

  ghost function Ids<T>(ts: seq<Tagged<T>>): set<nat> {
    set i | 0 <= i < |ts| :: ts[i].id
  }

  ghost function Bearing(fate: seq<Fate>, f: Fate): set<nat> {
    set i | 0 <= i < |fate| && fate[i] == f
  }

  predicate Located(s: State, f: Fate) {
    !f.SinkDropped? && !f.RouteDropped? && (f.InShard? || f.Delivered? ==> f.k < |s.shards|)
  }

  /** The messages found in the place a fate names. */
  ghost function Place(s: State, f: Fate): set<nat>
    requires Located(s, f)
  {
    match f
    case WithSink => if s.sink.SinkReady? then {} else {s.sink.id}
    case Queued => Ids(Queue(s))
    case WithPump => if InHand(s) then {s.pump.id} else {}
    case InShard(k) => Ids(R.Contents(s.shards[k]))
    case Delivered(k) => Ids(s.shards[k].popped)
  }

  /** Each fate is borne by exactly the messages found in the place it names. */
  ghost predicate Fates(s: State) {
    && (forall f :: Located(s, f) ==> Bearing(s.fate, f) == Place(s, f))
    && (forall i :: 0 <= i < |s.fate| && (s.fate[i].InShard? || s.fate[i].Delivered?) ==> s.fate[i].k < |s.shards|)
    && s.sinkDropped == |Bearing(s.fate, SinkDropped)|
    && s.routeDrop == |Bearing(s.fate, RouteDropped)|
  }

  lemma BearingMoves(fate: seq<Fate>, i: nat, g: Fate, f: Fate)
    requires i < |fate|
    ensures Bearing(fate[i := g], f) == if f == g then Bearing(fate, f) + {i} else Bearing(fate, f) - {i}
  {
  }

  lemma BearingGrows(fate: seq<Fate>, g: Fate, f: Fate)
    ensures Bearing(fate + [g], f) == if f == g then Bearing(fate, f) + {|fate|} else Bearing(fate, f)
  {
    forall i
      ensures i in Bearing(fate + [g], f) <==>
              i in (if f == g then Bearing(fate, f) + {|fate|} else Bearing(fate, f))
    {
    }
  }

  lemma IdsAppend<T>(ts: seq<Tagged<T>>, t: Tagged<T>)
    ensures Ids(ts + [t]) == Ids(ts) + {t.id}
  {
    forall i | i in Ids(ts) + {t.id}
      ensures i in Ids(ts + [t])
    {
      if i == t.id {
        assert (ts + [t])[|ts|].id == i;
      } else {
        var j :| 0 <= j < |ts| && ts[j].id == i;
        assert (ts + [t])[j].id == i;
      }
    }
  }

  lemma IdsTail<T>(ts: seq<Tagged<T>>, n: nat)
    requires n < |ts| && Increasing(ts)
    ensures Ids(ts[n + 1..]) == Ids(ts[n..]) - {ts[n].id}
    ensures ts[n].id in Ids(ts[n..])
  {
    assert ts[n..][0] == ts[n];
    forall i
      ensures i in Ids(ts[n + 1..]) <==> i in Ids(ts[n..]) - {ts[n].id}
    {
      if i in Ids(ts[n + 1..]) {
        var j :| 0 <= j < |ts[n + 1..]| && ts[n + 1..][j].id == i;
        assert ts[n..][j + 1].id == i;
      }
      if i in Ids(ts[n..]) - {ts[n].id} {
        var j :| 0 <= j < |ts[n..]| && ts[n..][j].id == i;
        assert j != 0 && ts[n + 1..][j - 1].id == i;
      }
    }
  }

  /** One message changes place: it leaves the place of its old fate and joins that of the new one. */
  lemma MoveKeepsFates(s: State, s': State, i: nat, g: Fate)
    requires Fates(s) && i < |s.fate| && s'.fate == s.fate[i := g] && |s'.shards| == |s.shards|
    requires s.fate[i] != g
    requires !s.fate[i].SinkDropped? && !s.fate[i].RouteDropped?
    requires g.InShard? || g.Delivered? ==> g.k < |s.shards|
    requires forall f :: Located(s, f) ==>
               Place(s', f) == if f == g then Place(s, f) + {i}
                               else if f == s.fate[i] then Place(s, f) - {i} else Place(s, f)
    requires s'.sinkDropped == s.sinkDropped + (if g == SinkDropped then 1 else 0)
    requires s'.routeDrop == s.routeDrop + (if g == RouteDropped then 1 else 0)
    ensures Fates(s')
  {
    forall f | Located(s', f)
      ensures Bearing(s'.fate, f) == Place(s', f)
    {
      assert Located(s, f);
      BearingMoves(s.fate, i, g, f);
      assert f != s.fate[i] ==> i !in Bearing(s.fate, f);
    }
    BearingMoves(s.fate, i, g, SinkDropped);
    BearingMoves(s.fate, i, g, RouteDropped);
  }

  /** Shard places depend only on the shard histories. */
  lemma ShardPlaces(s: State, s': State, f: Fate, k0: int)
    requires Located(s, f) && (f.InShard? || f.Delivered?) && ShardsBut(s, s', k0) && f.k != k0
    ensures Located(s', f) && Place(s', f) == Place(s, f)
  {
    assert SameShard(s, s', f.k);
  }

  lemma QuietKeepsFates(s: State, s': State)
    requires Fates(s) && Quiet(s, s')
    ensures Fates(s')
  {
    forall f | Located(s', f)
      ensures Bearing(s'.fate, f) == Place(s', f)
    {
      assert Located(s, f);
      if f.InShard? || f.Delivered? {
        ShardPlaces(s, s', f, -1);
      }
    }
  }

  lemma OfferedKeepsFates(s: State, s': State, payload: string)
    requires Fates(s) && Offered(s, s', payload)
    ensures Fates(s')
  {
    var g := s'.fate[|s.fate|];
    forall f | Located(s', f)
      ensures Bearing(s'.fate, f) == Place(s', f)
    {
      assert Located(s, f);
      BearingGrows(s.fate, g, f);
      if f.InShard? || f.Delivered? {
        ShardPlaces(s, s', f, -1);
      }
    }
    BearingGrows(s.fate, g, SinkDropped);
    BearingGrows(s.fate, g, RouteDropped);
    assert |s.fate| !in Bearing(s.fate, SinkDropped);
  }

  lemma SinkHasFate(s: State)
    requires Fates(s) && !s.sink.SinkReady?
    ensures s.sink.id < |s.fate| && s.fate[s.sink.id] == WithSink
  {
    assert Bearing(s.fate, WithSink) == Place(s, WithSink);
    assert s.sink.id in Bearing(s.fate, WithSink);
  }

  lemma HandHasFate(s: State)
    requires Fates(s) && InHand(s)
    ensures s.pump.id < |s.fate| && s.fate[s.pump.id] == WithPump
  {
    assert Bearing(s.fate, WithPump) == Place(s, WithPump);
    assert s.pump.id in Bearing(s.fate, WithPump);
  }

  lemma LostAtSinkKeepsFates(s: State, s': State)
    requires Fates(s) && LostAtSink(s, s')
    ensures Fates(s')
  {
    SinkHasFate(s);
    forall f | Located(s, f)
      ensures Place(s', f) == if f == WithSink then Place(s, f) - {s.sink.id} else Place(s, f)
    {
      if f.InShard? || f.Delivered? {
        ShardPlaces(s, s', f, -1);
      }
    }
    MoveKeepsFates(s, s', s.sink.id, SinkDropped);
  }

  lemma EnqueuedKeepsFates(s: State, s': State)
    requires Fates(s) && Enqueued(s, s')
    ensures Fates(s')
  {
    SinkHasFate(s);
    var t := Tagged(s.sink.ref, s.sink.id);
    assert Queue(s') == Queue(s) + [t];
    IdsAppend(Queue(s), t);
    forall f | Located(s, f)
      ensures Place(s', f) == if f == Queued then Place(s, f) + {t.id}
                              else if f == WithSink then Place(s, f) - {t.id} else Place(s, f)
    {
      if f.InShard? || f.Delivered? {
        ShardPlaces(s, s', f, -1);
      }
    }
    MoveKeepsFates(s, s', t.id, Queued);
  }

  lemma TakenKeepsFates(s: State, s': State)
    requires Fates(s) && Taken(s, s') && Increasing(s.frames.pushed)
    ensures Fates(s')
  {
    var n := |s.frames.popped|;
    var t := s.frames.pushed[n];
    IdsTail(s.frames.pushed, n);
    assert Queue(s) == s.frames.pushed[n..] && Queue(s') == s.frames.pushed[n + 1..];
    assert Bearing(s.fate, Queued) == Place(s, Queued);
    assert t.id in Bearing(s.fate, Queued);
    forall f | Located(s, f)
      ensures Place(s', f) == if f == WithPump then Place(s, f) + {t.id}
                              else if f == Queued then Place(s, f) - {t.id} else Place(s, f)
    {
      if f.InShard? || f.Delivered? {
        ShardPlaces(s, s', f, -1);
      }
    }
    MoveKeepsFates(s, s', t.id, WithPump);
  }

  lemma LostAtRouteKeepsFates(s: State, s': State)
    requires Fates(s) && LostAtRoute(s, s')
    ensures Fates(s')
  {
    HandHasFate(s);
    forall f | Located(s, f)
      ensures Place(s', f) == if f == WithPump then Place(s, f) - {s.pump.id} else Place(s, f)
    {
      if f.InShard? || f.Delivered? {
        ShardPlaces(s, s', f, -1);
      }
    }
    MoveKeepsFates(s, s', s.pump.id, RouteDropped);
  }

  lemma DispatchedKeepsFates(c: Config, s: State, s': State, k: nat)
    requires Fates(s) && Dispatched(c, s, s', k)
    ensures Fates(s')
  {
    HandHasFate(s);
    var t := Tagged(s.pump.event, s.pump.id);
    assert R.Contents(s'.shards[k]) == R.Contents(s.shards[k]) + [t];
    IdsAppend(R.Contents(s.shards[k]), t);
    forall f | Located(s, f)
      ensures Place(s', f) == if f == InShard(k) then Place(s, f) + {t.id}
                              else if f == WithPump then Place(s, f) - {t.id} else Place(s, f)
    {
      if (f.InShard? || f.Delivered?) && f.k != k {
        ShardPlaces(s, s', f, k);
      }
    }
    MoveKeepsFates(s, s', t.id, InShard(k));
  }

  lemma PoppedKeepsFates(c: Config, s: State, s': State, k: nat)
    requires Order(c, s) && Fates(s) && Popped(s, s', k)
    ensures Fates(s')
  {
    var t := s.shards[k].pushed[|s.shards[k].popped|];
    PoppedHadFate(c, s, s', k);
    assert ShardOrder(c, s, k);
    forall f | Located(s, f)
      ensures Place(s', f) == if f == Delivered(k) then Place(s, f) + {t.id}
                              else if f == InShard(k) then Place(s, f) - {t.id} else Place(s, f)
    {
      PoppedPlace(s, s', k, t, f);
    }
    MoveKeepsFates(s, s', t.id, Delivered(k));
  }

  lemma PoppedPlace(s: State, s': State, k: nat, t: Tagged<RoutedEvent>, f: Fate)
    requires Popped(s, s', k) && Increasing(s.shards[k].pushed) && Located(s, f)
    requires t == s.shards[k].pushed[|s.shards[k].popped|]
    ensures Located(s', f)
    ensures Place(s', f) == if f == Delivered(k) then Place(s, f) + {t.id}
                            else if f == InShard(k) then Place(s, f) - {t.id} else Place(s, f)
  {
    if f == InShard(k) {
      IdsTail(s.shards[k].pushed, |s.shards[k].popped|);
    } else if f == Delivered(k) {
      IdsAppend(s.shards[k].popped, t);
    } else if f.InShard? || f.Delivered? {
      ShardPlaces(s, s', f, k);
    }
  }

  lemma EffectKeepsFates(c: Config, s: State, s': State, a: Action)
    requires Order(c, s) && Fates(s) && Effect(c, s, s', a)
    ensures Fates(s')
  {
    if Quiet(s, s') {
      QuietKeepsFates(s, s');
    } else if a.Offer? && Offered(s, s', a.payload) {
      OfferedKeepsFates(s, s', a.payload);
    } else if LostAtSink(s, s') {
      LostAtSinkKeepsFates(s, s');
    } else if Enqueued(s, s') {
      EnqueuedKeepsFates(s, s');
    } else if Taken(s, s') {
      TakenKeepsFates(s, s');
    } else if LostAtRoute(s, s') {
      LostAtRouteKeepsFates(s, s');
    } else if s.pump.PumpDispatching? && Dispatched(c, s, s', s.pump.event.shard) {
      DispatchedKeepsFates(c, s, s', s.pump.event.shard);
    } else {
      PoppedKeepsFates(c, s, s', a.k);
    }
  }

  // ---------------------------------------------------------------- the messages that got through

  /** In a shard's queue, or popped from it. */
  predicate GotThrough(f: Fate) {
    f.InShard? || f.Delivered?
  }

  function Through(fate: seq<Fate>): set<nat> {
    set i | 0 <= i < |fate| && GotThrough(fate[i])
  }

  predicate SuccessesCount(s: State) {
    s.routeSuccess == |Through(s.fate)|
  }

  lemma ThroughMoves(fate: seq<Fate>, i: nat, g: Fate)
    requires i < |fate|
    ensures Through(fate[i := g]) == if GotThrough(g) then Through(fate) + {i} else Through(fate) - {i}
  {
  }

  lemma ThroughGrows(fate: seq<Fate>, g: Fate)
    requires !GotThrough(g)
    ensures Through(fate + [g]) == Through(fate)
  {
  }

  lemma TakenHadFate(c: Config, s: State, s': State)
    requires Order(c, s) && Fates(s) && Taken(s, s')
    ensures s.fate[s.frames.pushed[|s.frames.popped|].id] == Queued
  {
    var n := |s.frames.popped|;
    IdsTail(s.frames.pushed, n);
    assert Queue(s) == s.frames.pushed[n..];
    assert Bearing(s.fate, Queued) == Place(s, Queued);
    assert s.frames.pushed[n].id in Bearing(s.fate, Queued);
  }

  lemma PoppedHadFate(c: Config, s: State, s': State, k: nat)
    requires Order(c, s) && Fates(s) && Popped(s, s', k)
    ensures s.fate[s.shards[k].pushed[|s.shards[k].popped|].id] == InShard(k)
  {
    var n := |s.shards[k].popped|;
    assert ShardOrder(c, s, k);
    IdsTail(s.shards[k].pushed, n);
    assert R.Contents(s.shards[k]) == s.shards[k].pushed[n..];
    assert Bearing(s.fate, InShard(k)) == Place(s, InShard(k));
    assert s.shards[k].pushed[n].id in Bearing(s.fate, InShard(k));
  }

  lemma MovedSuccesses(s: State, s': State, i: nat, g: Fate)
    requires SuccessesCount(s) && i < |s.fate| && s'.fate == s.fate[i := g] && (GotThrough(s.fate[i]) ==> GotThrough(g))
    requires s'.routeSuccess == s.routeSuccess + (if GotThrough(g) && !GotThrough(s.fate[i]) then 1 else 0)
    ensures SuccessesCount(s')
  {
    ThroughMoves(s.fate, i, g);
    if GotThrough(s.fate[i]) {
      assert Through(s.fate) + {i} == Through(s.fate);
    } else {
      assert Through(s.fate) - {i} == Through(s.fate);
    }
  }

  lemma EffectKeepsSuccesses(c: Config, s: State, s': State, a: Action)
    requires Order(c, s) && Fates(s) && SuccessesCount(s) && Effect(c, s, s', a)
    ensures SuccessesCount(s')
  {
    if Quiet(s, s') {
    } else if a.Offer? && Offered(s, s', a.payload) {
      ThroughGrows(s.fate, s'.fate[|s.fate|]);
    } else if LostAtSink(s, s') {
      SinkHasFate(s);
      MovedSuccesses(s, s', s.sink.id, SinkDropped);
    } else if Enqueued(s, s') {
      SinkHasFate(s);
      MovedSuccesses(s, s', s.sink.id, Queued);
    } else if Taken(s, s') {
      TakenHadFate(c, s, s');
      MovedSuccesses(s, s', s.frames.pushed[|s.frames.popped|].id, WithPump);
    } else if LostAtRoute(s, s') {
      HandHasFate(s);
      MovedSuccesses(s, s', s.pump.id, RouteDropped);
    } else if s.pump.PumpDispatching? && Dispatched(c, s, s', s.pump.event.shard) {
      HandHasFate(s);
      MovedSuccesses(s, s', s.pump.id, InShard(s.pump.event.shard));
    } else {
      PoppedHadFate(c, s, s', a.k);
      MovedSuccesses(s, s', s.shards[a.k].pushed[|s.shards[a.k].popped|].id, Delivered(a.k));
    }
  }

  // ---------------------------------------------------------------- every run

  lemma InitialOrderAndFates(c: Config)
    ensures Sound(c, Initial(c)) && Order(c, Initial(c)) && Fates(Initial(c)) && SuccessesCount(Initial(c))
  {
    InitialSound(c);
    var s := Initial(c);
    assert Bearing(s.fate, SinkDropped) == {} && Bearing(s.fate, RouteDropped) == {};
    forall f | Located(s, f)
      ensures Bearing(s.fate, f) == Place(s, f)
    {
      assert Bearing(s.fate, f) == {};
    }
  }

  lemma {:induction false} RunKeeps(c: Config, s: State, actions: seq<Action>)
    requires Sound(c, s) && Order(c, s) && Fates(s) && SuccessesCount(s)
    ensures var t := PipelineProofs.Run(c, s, actions); Order(c, t) && Fates(t) && SuccessesCount(t)
    decreases |actions|
  {
    if actions != [] {
      StepKeepsSound(c, s, actions[0]);
      var s' := Step(c, s, actions[0]);
      StepEffect(c, s, actions[0]);
      EffectKeepsOrder(c, s, s', actions[0]);
      EffectKeepsFates(c, s, s', actions[0]);
      EffectKeepsSuccesses(c, s, s', actions[0]);
      RunKeeps(c, s', actions[1..]);
    }
  }

  ghost predicate StrictlyIncreasing(xs: seq<nat>) {
    forall i, j :: 0 <= i < j < |xs| ==> xs[i] < xs[j]
  }

  ghost predicate PoppedInOrder(c: Config, s: State, k: nat, positions: seq<nat>)
    requires k < |s.shards|
  {
    var popped := s.shards[k].popped;
    && |positions| == |popped| && StrictlyIncreasing(positions)
    && forall i :: 0 <= i < |popped| ==>
         && positions[i] < |s.log|
         && c.Routed(s.log[positions[i]]) == Some(popped[i].item)
         && c.ShardOf(popped[i].item.market) == k
  }

  lemma PositionsOfPops(c: Config, s: State, k: nat) returns (positions: seq<nat>)
    requires k < |s.shards| && ShardOrder(c, s, k)
    requires |s.shards[k].popped| <= |s.shards[k].pushed|
    requires s.shards[k].popped == s.shards[k].pushed[..|s.shards[k].popped|]
    ensures PoppedInOrder(c, s, k, positions)
  {
    var r := s.shards[k];
    positions := seq(|r.popped|, i requires 0 <= i < |r.popped| => r.popped[i].id);
    forall i | 0 <= i < |r.popped|
      ensures positions[i] < |s.log| && c.Routed(s.log[positions[i]]) == Some(r.popped[i].item)
              && c.ShardOf(r.popped[i].item.market) == k
    {
      assert r.popped[i] == r.pushed[i];
      assert Delivery(c, s.log, k, r.pushed[i]);
    }
  }

  /**
   What shard `k` has popped, at any moment of any run, is the routing of an in-order subsequence of the
   messages offered to the sink, and every one of them belongs to a market of shard `k`.
   */
  lemma EndToEndOrder(c: Config, actions: seq<Action>, k: nat) returns (positions: seq<nat>)
    requires k < c.ShardCount()
    ensures Sound(c, Initial(c))
    ensures PoppedInOrder(c, PipelineProofs.Run(c, Initial(c), actions), k, positions)
  {
    InitialOrderAndFates(c);
    RunKeeps(c, Initial(c), actions);
    var s := PipelineProofs.Run(c, Initial(c), actions);
    assert ShardOrder(c, s, k);
    positions := PositionsOfPops(c, s, k);
  }

  /**
   Every message offered so far is in exactly one place, and its fate names it: dropped at the sink, in the
   sink's hand, in the frame queue, in the pump's hand, dropped at routing, in a shard queue, or popped. The
   two drop counters count exactly the dropped ones, the success counter those that reached a shard.
   */
  lemma EveryMessageHasOneFate(c: Config, actions: seq<Action>, id: nat)
    ensures Sound(c, Initial(c))
    ensures var s := PipelineProofs.Run(c, Initial(c), actions);
            && |s.fate| == |s.log|
            && (id < |s.log| ==>
                && (s.fate[id] == WithSink <==> !s.sink.SinkReady? && s.sink.id == id)
                && (s.fate[id] == Queued <==> id in Ids(Queue(s)))
                && (s.fate[id] == WithPump <==> InHand(s) && s.pump.id == id)
                && (forall k :: 0 <= k < |s.shards| ==>
                    && (s.fate[id] == InShard(k) <==> id in Ids(R.Contents(s.shards[k])))
                    && (s.fate[id] == Delivered(k) <==> id in Ids(s.shards[k].popped))))
            && s.sinkDropped == |Bearing(s.fate, SinkDropped)|
            && s.routeDrop == |Bearing(s.fate, RouteDropped)| && s.routeSuccess == |Through(s.fate)|
  {
    InitialOrderAndFates(c);
    RunKeeps(c, Initial(c), actions);
    var s := PipelineProofs.Run(c, Initial(c), actions);
    if id < |s.log| {
      assert Bearing(s.fate, WithSink) == Place(s, WithSink);
      assert Bearing(s.fate, Queued) == Place(s, Queued);
      assert Bearing(s.fate, WithPump) == Place(s, WithPump);
      assert s.fate[id] == WithSink <==> id in Bearing(s.fate, WithSink);
      assert s.fate[id] == Queued <==> id in Bearing(s.fate, Queued);
      assert s.fate[id] == WithPump <==> id in Bearing(s.fate, WithPump);
      forall k | 0 <= k < |s.shards|
        ensures s.fate[id] == InShard(k) <==> id in Ids(R.Contents(s.shards[k]))
        ensures s.fate[id] == Delivered(k) <==> id in Ids(s.shards[k].popped)
      {
        assert Bearing(s.fate, InShard(k)) == Place(s, InShard(k));
        assert Bearing(s.fate, Delivered(k)) == Place(s, Delivered(k));
        assert s.fate[id] == InShard(k) <==> id in Bearing(s.fate, InShard(k));
        assert s.fate[id] == Delivered(k) <==> id in Bearing(s.fate, Delivered(k));
      }
    }
  }
}
