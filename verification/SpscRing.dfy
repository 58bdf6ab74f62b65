/**
 The single-producer single-consumer ring that carries frame handles to the pump and routed events to the
 shards. `try_push` and `try_pop` are split into their loads, their buffer access and their publishing store,
 and the two sides interleave freely. A load of the other side's index may return any value that side has
 published since the last one seen: a view may lag, but never goes backwards.
 */
module SpscRing {
  import opened Arithmetic

  datatype Producer<T> =
    | PIdle
    | PLoaded(item: T, at: nat)   // own head loaded
    | PChecked(item: T, at: nat)  // ring seen not full
    | PWritten(item: T, at: nat)  // slot written, not yet published

  datatype Consumer<T> =
    | CIdle
    | CLoaded(at: nat)            // own tail loaded
    | CChecked(at: nat)           // ring seen not empty
    | CRead(at: nat, item: T)     // slot read, not yet handed back

  /**
   `pushed` and `popped` record every published push and pop. `tailSeen` is the number of pops the producer
   has seen published, `headSeen` the number of pushes the consumer has seen.
   */
  datatype Ring<T> = Ring(
    capacity: nat,
    buffer: seq<T>,
    head: nat,
    tail: nat,
    producer: Producer<T>,
    consumer: Consumer<T>,
    pushed: seq<T>,
    popped: seq<T>,
    tailSeen: nat,
    headSeen: nat)

  datatype Action<T> =
    | LoadHead(item: T)
    | LoadTailView(tailView: nat)
    | WriteSlot
    | PublishHead
    | LoadTail
    | LoadHeadView(headView: nat)
    | ReadSlot
    | PublishTail

  function Increment(index: nat, capacity: nat): nat
    requires 0 < capacity
  {
    (index + 1) % capacity
  }

  /** The least capacity that is 2 at least and as much as requested. */
  function ResolvedCapacity(requested: nat): (capacity: nat)
    ensures 2 <= capacity && requested <= capacity && (capacity == 2 || capacity == requested)
  {
    if requested < 2 then 2 else requested
  }

  predicate Enabled<T>(r: Ring<T>, a: Action<T>) {
    match a
    case LoadHead(_) => r.producer.PIdle?
    case LoadTailView(v) => r.producer.PLoaded? && r.tailSeen <= v <= |r.popped|
    case WriteSlot => r.producer.PChecked?
    case PublishHead => r.producer.PWritten?
    case LoadTail => r.consumer.CIdle?
    case LoadHeadView(v) => r.consumer.CLoaded? && r.headSeen <= v <= |r.pushed|
    case ReadSlot => r.consumer.CChecked?
    case PublishTail => r.consumer.CRead?
  }

  function Next<T>(r: Ring<T>, a: Action<T>): Ring<T>
    requires RingInvariant(r) && Enabled(r, a)
  {
    match a
    case LoadHead(item) => r.(producer := PLoaded(item, r.head))
    case LoadTailView(v) =>
      if Increment(r.producer.at, r.capacity) == v % r.capacity then r.(producer := PIdle, tailSeen := v)
      else r.(producer := PChecked(r.producer.item, r.producer.at), tailSeen := v)
    case WriteSlot =>
      r.(buffer := r.buffer[r.producer.at := r.producer.item], producer := PWritten(r.producer.item, r.producer.at))
    case PublishHead =>
      r.(head := Increment(r.producer.at, r.capacity), pushed := r.pushed + [r.producer.item], producer := PIdle)
    case LoadTail => r.(consumer := CLoaded(r.tail))
    case LoadHeadView(v) =>
      if r.consumer.at == v % r.capacity then r.(consumer := CIdle, headSeen := v)
      else r.(consumer := CChecked(r.consumer.at), headSeen := v)
    case ReadSlot => r.(consumer := CRead(r.consumer.at, r.buffer[r.consumer.at]))
    case PublishTail =>
      r.(tail := Increment(r.consumer.at, r.capacity), popped := r.popped + [r.consumer.item], consumer := CIdle)
  }

  ghost predicate ProducerInvariant<T>(r: Ring<T>)
    requires 2 <= r.capacity == |r.buffer| && r.head < r.capacity
  {
    match r.producer
    case PIdle => true
    case PLoaded(_, at) => at == r.head
    case PChecked(_, at) => at == r.head && |r.pushed| + 1 - r.tailSeen < r.capacity
    case PWritten(item, at) =>
      at == r.head && |r.pushed| + 1 - r.tailSeen < r.capacity && r.buffer[at] == item
  }

  ghost predicate ConsumerInvariant<T>(r: Ring<T>) {
    match r.consumer
    case CIdle => true
    case CLoaded(at) => at == r.tail
    case CChecked(at) => at == r.tail && |r.popped| < r.headSeen
    case CRead(at, item) => at == r.tail && |r.popped| < r.headSeen <= |r.pushed| && item == r.pushed[|r.popped|]
  }

  ghost predicate RingInvariant<T>(r: Ring<T>) {
    && 2 <= r.capacity == |r.buffer|
    && r.head == |r.pushed| % r.capacity
    && r.tail == |r.popped| % r.capacity
    && r.tailSeen <= |r.popped| <= r.headSeen <= |r.pushed|
    && |r.pushed| - r.tailSeen < r.capacity
    && r.popped == r.pushed[..|r.popped|]
    && (forall i :: |r.popped| <= i < |r.pushed| ==> r.buffer[i % r.capacity] == r.pushed[i])
    && ProducerInvariant(r)
    && ConsumerInvariant(r)
  }

  /** The abstract queue: pushed and not yet popped. */
  function Contents<T>(r: Ring<T>): seq<T> {
    if |r.popped| <= |r.pushed| then r.pushed[|r.popped|..] else []
  }

  function NewRing<T>(requested: nat, filler: T): Ring<T> {
    var capacity := ResolvedCapacity(requested);
    Ring(capacity, seq(capacity, i => filler), 0, 0, PIdle, CIdle, [], [], 0, 0)
  }

  // ---------------------------------------------------------------- modular indices

  lemma ModOf(q: int, r: int, m: int)
    requires 0 <= r < m
    ensures (q * m + r) % m == r
  {
    var x := q * m + r;
    MultipleBounds(q - x / m, m);
    assert (q - x / m) * m == x % m - r;
  }

  lemma ModSuccessor(n: int, m: int)
    requires 2 <= m
    ensures (n % m + 1) % m == (n + 1) % m
  {
    var q, r := n / m, n % m;
    assert n == q * m + r;
    if r + 1 < m {
      assert n + 1 == q * m + (r + 1);
      ModOf(q, r + 1, m);
      ModOf(0, r + 1, m);
    } else {
      assert n + 1 == (q + 1) * m + 0;
      ModOf(q + 1, 0, m);
      ModOf(1, 0, m);
    }
  }

  lemma LapMod(n: int, m: int)
    requires 2 <= m
    ensures (n + m) % m == n % m
  {
    ModOf(n / m + 1, n % m, m);
  }

  /** Two positions less than one lap apart share a slot only if they are the same position. */
  lemma ModDistinct(i: int, j: int, m: int)
    requires 2 <= m && i <= j < i + m
    ensures i % m == j % m <==> i == j
  {
    MultipleBounds(j / m - i / m, m);
    assert j - i == (j / m - i / m) * m + j % m - i % m;
  }

  // ---------------------------------------------------------------- refinement of a bounded FIFO

  lemma NewRingInvariant<T>(requested: nat, filler: T)
    ensures RingInvariant(NewRing(requested, filler)) && Contents(NewRing(requested, filler)) == []
  {
  }

  lemma ProducerStepKeeps<T>(r: Ring<T>, a: Action<T>)
    requires RingInvariant(r) && Enabled(r, a)
    requires a.LoadHead? || a.LoadTailView? || a.WriteSlot? || a.PublishHead?
    ensures RingInvariant(Next(r, a))
  {
    var r' := Next(r, a);
    match a {
      case LoadHead(_) =>
      case LoadTailView(v) =>
        ModSuccessor(|r.pushed|, r.capacity);
        ModDistinct(v, |r.pushed| + 1, r.capacity + 1);
        if |r.pushed| + 1 - v < r.capacity {
          ModDistinct(v, |r.pushed| + 1, r.capacity);
        } else {
          assert |r.pushed| + 1 == v + r.capacity;
          LapMod(v, r.capacity);
        }
      case WriteSlot =>
        forall i | |r.popped| <= i < |r.pushed|
          ensures r'.buffer[i % r.capacity] == r.pushed[i]
        {
          ModDistinct(i, |r.pushed|, r.capacity);
        }
      case PublishHead =>
        ModSuccessor(|r.pushed|, r.capacity);
        assert r'.popped == r'.pushed[..|r'.popped|];
    }
  }

  lemma ConsumerStepKeeps<T>(r: Ring<T>, a: Action<T>)
    requires RingInvariant(r) && Enabled(r, a)
    requires a.LoadTail? || a.LoadHeadView? || a.ReadSlot? || a.PublishTail?
    ensures RingInvariant(Next(r, a))
  {
    var r' := Next(r, a);
    match a {
      case LoadTail =>
      case LoadHeadView(v) =>
      case ReadSlot =>
      case PublishTail =>
        ModSuccessor(|r.popped|, r.capacity);
        assert r'.popped == r.pushed[..|r'.popped|];
    }
  }

  lemma ContentsFollow<T>(r: Ring<T>, a: Action<T>)
    requires RingInvariant(r) && Enabled(r, a)
    ensures FifoStep(r, a, Next(r, a))
  {
    match a {
      case PublishHead =>
        assert (r.pushed + [r.producer.item])[|r.popped|..] == r.pushed[|r.popped|..] + [r.producer.item];
      case PublishTail =>
        assert r.pushed[|r.popped|..] == [r.pushed[|r.popped|]] + r.pushed[|r.popped| + 1..];
      case _ =>
    }
  }

  /** What a step does to the abstract queue. */
  predicate FifoStep<T(==)>(r: Ring<T>, a: Action<T>, r': Ring<T>)
    requires Enabled(r, a)
  {
    match a
    case PublishHead => Contents(r') == Contents(r) + [r.producer.item] && |Contents(r')| < r.capacity
    case PublishTail => Contents(r) == [r.consumer.item] + Contents(r')
    case _ => Contents(r') == Contents(r)
  }

  /**
   Every step, in every interleaving and with every permitted view, either leaves the abstract queue alone,
   or is one enqueue at the back that keeps it below capacity, or is one dequeue of the front item.
   */
  lemma StepRefinesFifo<T>(r: Ring<T>, a: Action<T>)
    requires RingInvariant(r) && Enabled(r, a)
    ensures RingInvariant(Next(r, a)) && FifoStep(r, a, Next(r, a))
  {
    ContentsFollow(r, a);
    if a.LoadHead? || a.LoadTailView? || a.WriteSlot? || a.PublishHead? {
      ProducerStepKeeps(r, a);
    } else {
      ConsumerStepKeeps(r, a);
    }
  }

  /** A push gives up exactly when the view it loaded shows capacity - 1 items, a pop when it shows none. */
  lemma RefusalsAreExact<T>(r: Ring<T>, a: Action<T>)
    requires RingInvariant(r) && Enabled(r, a)
    ensures a.LoadTailView? ==> (Next(r, a).producer.PIdle? <==> |r.pushed| - a.tailView == r.capacity - 1)
    ensures a.LoadHeadView? ==> (Next(r, a).consumer.CIdle? <==> a.headView == |r.popped|)
  {
    if a.LoadTailView? {
      var v := a.tailView;
      ModSuccessor(|r.pushed|, r.capacity);
      if |r.pushed| + 1 - v < r.capacity {
        ModDistinct(v, |r.pushed| + 1, r.capacity);
      } else {
        LapMod(v, r.capacity);
      }
    } else if a.LoadHeadView? {
      ModDistinct(|r.popped|, a.headView, r.capacity);
    }
  }

  /** A producer write never touches a slot that still holds an unread item. */
  lemma NoUnreadSlotIsOverwritten<T>(r: Ring<T>, i: nat)
    requires RingInvariant(r) && r.producer.PChecked?
    requires |r.popped| <= i < |r.pushed|
    ensures i % r.capacity != r.producer.at
  {
    ModDistinct(i, |r.pushed|, r.capacity);
  }

  // ---------------------------------------------------------------- whole runs

  /** Any sequence of actions is an interleaving; actions that are not enabled are no steps. */
  ghost function Run<T>(r: Ring<T>, actions: seq<Action<T>>): (r': Ring<T>)
    requires RingInvariant(r)
    ensures RingInvariant(r') && r'.capacity == r.capacity
    decreases |actions|
  {
    if actions == [] then r
    else if !Enabled(r, actions[0]) then Run(r, actions[1..])
    else StepRefinesFifo(r, actions[0]); Run(Next(r, actions[0]), actions[1..])
  }

  /** In every reachable state the pops are a prefix of the pushes, and at least one slot stays empty. */
  lemma PopsArePrefixOfPushes<T>(requested: nat, filler: T, actions: seq<Action<T>>)
    ensures RingInvariant(NewRing(requested, filler))
    ensures var r := Run(NewRing(requested, filler), actions);
            r.popped <= r.pushed && |r.pushed| - |r.popped| <= if requested <= 2 then 1 else requested - 1
  {
    NewRingInvariant(requested, filler);
    var r := Run(NewRing(requested, filler), actions);
    assert r.popped == r.pushed[..|r.popped|];
  }

  // ---------------------------------------------------------------- the queue object

  ghost predicate AtRest<T>(r: Ring<T>) {
    r.producer.PIdle? && r.consumer.CIdle? && r.tailSeen == |r.popped| && r.headSeen == |r.pushed|
  }

  /** Bringing both views up to date changes nothing else. */
  lemma CatchUp<T>(r: Ring<T>)
    requires RingInvariant(r)
    ensures RingInvariant(r.(tailSeen := |r.popped|, headSeen := |r.pushed|))
    ensures Contents(r.(tailSeen := |r.popped|, headSeen := |r.pushed|)) == Contents(r)
  {
  }

  /** The four producer steps in a row, with an up-to-date view. */
  lemma PushAlone<T>(r: Ring<T>, item: T)
    requires RingInvariant(r) && AtRest(r)
    ensures Increment(r.head, r.capacity) == r.tail <==> |Contents(r)| == r.capacity - 1
    ensures Increment(r.head, r.capacity) != r.tail ==>
              var r' := r.(buffer := r.buffer[r.head := item], head := Increment(r.head, r.capacity),
                           pushed := r.pushed + [item], headSeen := |r.pushed| + 1);
              RingInvariant(r') && Contents(r') == Contents(r) + [item]
  {
    StepRefinesFifo(r, LoadHead(item));
    var r1 := Next(r, LoadHead(item));
    StepRefinesFifo(r1, LoadTailView(|r.popped|));
    RefusalsAreExact(r1, LoadTailView(|r.popped|));
    var r2 := Next(r1, LoadTailView(|r.popped|));
    if r2.producer.PChecked? {
      PushChecked(r, r2, item);
    }
  }

  lemma PushChecked<T>(r: Ring<T>, r2: Ring<T>, item: T)
    requires RingInvariant(r2) && AtRest(r) && r2 == r.(producer := PChecked(item, r.head))
    requires Contents(r2) == Contents(r)
    ensures var r' := r.(buffer := r.buffer[r.head := item], head := Increment(r.head, r.capacity),
                         pushed := r.pushed + [item], headSeen := |r.pushed| + 1);
            RingInvariant(r') && Contents(r') == Contents(r) + [item]
  {
    StepRefinesFifo(r2, WriteSlot);
    var r3 := Next(r2, WriteSlot);
    StepRefinesFifo(r3, PublishHead);
    var r4 := Next(r3, PublishHead);
    CatchUp(r4);
    assert r4 == r.(buffer := r.buffer[r.head := item], head := Increment(r.head, r.capacity),
                    pushed := r.pushed + [item]);
  }

  lemma PopAlone<T>(r: Ring<T>)
    requires RingInvariant(r) && AtRest(r)
    ensures r.tail == r.head <==> Contents(r) == []
    ensures r.tail != r.head ==>
              var r' := r.(tail := Increment(r.tail, r.capacity), popped := r.popped + [r.buffer[r.tail]],
                           tailSeen := |r.popped| + 1);
              RingInvariant(r') && Contents(r) == [r.buffer[r.tail]] + Contents(r')
  {
    StepRefinesFifo(r, LoadTail);
    var r1 := Next(r, LoadTail);
    StepRefinesFifo(r1, LoadHeadView(|r.pushed|));
    RefusalsAreExact(r1, LoadHeadView(|r.pushed|));
    var r2 := Next(r1, LoadHeadView(|r.pushed|));
    if r2.consumer.CChecked? {
      StepRefinesFifo(r2, ReadSlot);
      var r3 := Next(r2, ReadSlot);
      StepRefinesFifo(r3, PublishTail);
      var r4 := Next(r3, PublishTail);
      CatchUp(r4);
      assert r4 == r.(tail := Increment(r.tail, r.capacity), popped := r.popped + [r.buffer[r.tail]]);
    }
  }

  class SpscQueue<T> {
    const capacity: nat
    const buffer: array<T>
    var head: nat
    var tail: nat
    ghost var pushed: seq<T>
    ghost var popped: seq<T>

    /** The object between calls, seen as a ring with both sides idle and up to date. */
    ghost function View(): Ring<T>
      reads this, buffer
    {
      Ring(capacity, buffer[..], head, tail, PIdle, CIdle, pushed, popped, |popped|, |pushed|)
    }

    ghost predicate Valid()
      reads this, buffer
    {
      buffer.Length == capacity && RingInvariant(View())
    }

    ghost function Items(): seq<T>
      reads this, buffer
    {
      Contents(View())
    }

    constructor (requested: nat, filler: T)
      ensures Valid() && fresh(buffer)
      ensures Items() == [] && capacity == ResolvedCapacity(requested)
    {
      var resolved := if requested < 2 then 2 else requested;
      capacity := resolved;
      buffer := new T[resolved](i => filler);
      head, tail := 0, 0;
      pushed, popped := [], [];
    }

    method TryPush(item: T) returns (ok: bool)
      requires Valid()
      modifies this`head, this`pushed, buffer
      ensures Valid()
      ensures ok <==> |old(Items())| < capacity - 1
      ensures Items() == if ok then old(Items()) + [item] else old(Items())
    {
      PushAlone(View(), item);
      var at := head;
      var next := (at + 1) % capacity;
      if next == tail {
        return false;
      }
      buffer[at] := item;
      head := next;
      pushed := pushed + [item];
      assert buffer[..] == old(buffer[..])[at := item];
      return true;
    }

    method TryPop(fallback: T) returns (ok: bool, item: T)
      requires Valid()
      modifies this`tail, this`popped
      ensures Valid()
      ensures ok <==> old(Items()) != []
      ensures if ok then old(Items()) == [item] + Items() else Items() == old(Items()) && item == fallback
    {
      PopAlone(View());
      var at := tail;
      if at == head {
        return false, fallback;
      }
      item := buffer[at];
      tail := (at + 1) % capacity;
      popped := popped + [item];
      return true, item;
    }
  }
}
