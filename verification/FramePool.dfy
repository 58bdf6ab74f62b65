/** The slot pool of the ingest path: a free list, and generations that tell old handles from new ones. */
module FramePool {
  import opened MarketTypes

  datatype RawFrame = RawFrame(source: string, payload: string, market: string, seqId: Option<nat>)
  datatype FrameRef = FrameRef(slot: nat, generation: nat, payloadSize: nat)

  const BLANK_FRAME := RawFrame("", "", "", None)
  const INITIAL_GENERATION: nat := 1
  const UINT32_SIZE: nat := 0x1_0000_0000
  const UINT64_SIZE: nat := 0x1_0000_0000_0000_0000

  // ---------------------------------------------------------------- one call, on values

  datatype Pool = Pool(frames: seq<RawFrame>, generations: seq<nat>, inUse: seq<bool>, free: seq<nat>)

  /** A new pool hands out slot 0 first: the list is popped at its end. */
  function NewPool(capacity: nat): Pool {
    Pool(seq(capacity, i => BLANK_FRAME), seq(capacity, i => INITIAL_GENERATION), seq(capacity, i => false),
         seq(capacity, i => capacity - i - 1))
  }

  ghost predicate PoolInvariant(p: Pool) {
    && |p.frames| == |p.generations| == |p.inUse|
    && (forall s :: s in p.free <==> 0 <= s < |p.inUse| && !p.inUse[s])
    && (forall i, j :: 0 <= i < j < |p.free| ==> p.free[i] != p.free[j])
    && (forall s :: 0 <= s < |p.generations| ==> 1 <= p.generations[s] < UINT64_SIZE)
  }

  function NonZero(g: nat): nat {
    if g == 0 then INITIAL_GENERATION else g
  }

  /** uint64 increment that skips 0. */
  function NextGeneration(g: nat): nat {
    NonZero((g + 1) % UINT64_SIZE)
  }

  /** `frame(ref)` is not null. */
  predicate Live(p: Pool, ref: FrameRef)
    requires |p.inUse| == |p.generations|
  {
    ref.slot < |p.generations| && p.inUse[ref.slot] && ref.generation == p.generations[ref.slot]
  }

  function Acquire(p: Pool): (Pool, Option<FrameRef>)
    requires PoolInvariant(p)
  {
    if p.free == [] then (p, None)
    else
      var slot := p.free[|p.free| - 1];
      assert slot in p.free;
      (Pool(p.frames[slot := BLANK_FRAME], p.generations[slot := NonZero(p.generations[slot])],
            p.inUse[slot := true], p.free[..|p.free| - 1]),
       Some(FrameRef(slot, NonZero(p.generations[slot]), 0)))
  }

  function Release(p: Pool, ref: FrameRef): (Pool, bool)
    requires PoolInvariant(p)
  {
    if !Live(p, ref) then (p, false)
    else (p.(inUse := p.inUse[ref.slot := false],
             generations := p.generations[ref.slot := NextGeneration(p.generations[ref.slot])],
             free := p.free + [ref.slot]), true)
  }

  /** Writing through the pointer that `frame(ref)` returned. */
  function Write(p: Pool, ref: FrameRef, frame: RawFrame): Pool
    requires PoolInvariant(p)
  {
    if Live(p, ref) then p.(frames := p.frames[ref.slot := frame]) else p
  }

  lemma NewPoolInvariant(capacity: nat)
    ensures PoolInvariant(NewPool(capacity))
  {
    var p := NewPool(capacity);
    forall s | 0 <= s < capacity
      ensures s in p.free
    {
      assert p.free[capacity - s - 1] == s;
    }
  }

  /** A slot is found exactly if one is not in use; its frame is cleared, and no other slot changes. */
  lemma AcquireClears(p: Pool)
    requires PoolInvariant(p)
    ensures var (p', ref) := Acquire(p);
            && (ref.Some? <==> exists s :: 0 <= s < |p.inUse| && !p.inUse[s])
            && (ref.None? ==> p' == p)
            && (ref.Some? ==>
                  var slot := ref.value.slot;
                  && slot < |p.inUse| && !p.inUse[slot] && p'.inUse == p.inUse[slot := true]
                  && p'.frames == p.frames[slot := RawFrame("", "", "", None)]
                  && ref.value == FrameRef(slot, p.generations[slot], 0))
  {
    if p.free == [] {
      forall s | 0 <= s < |p.inUse| ensures p.inUse[s] {
        assert s !in p.free;
      }
    } else {
      assert p.free[|p.free| - 1] in p.free;
    }
  }

  /** The slot given back last is the next one handed out, under a generation that its old handle does not have. */
  lemma LastReleasedIsNext(p: Pool, ref: FrameRef)
    requires PoolInvariant(p) && Live(p, ref)
    ensures PoolInvariant(Release(p, ref).0)
    ensures var again := Acquire(Release(p, ref).0).1;
            && again.Some? && again.value.slot == ref.slot && again.value.generation != ref.generation
            && again.value.generation == if ref.generation == 0xffff_ffff_ffff_ffff then 1 else ref.generation + 1
  {
    ReleaseKeeps(p, ref);
  }

  lemma AcquireKeeps(p: Pool)
    requires PoolInvariant(p)
    ensures PoolInvariant(Acquire(p).0) && Acquire(p).0.generations == p.generations
    ensures Acquire(p).1.Some? ==> Live(Acquire(p).0, Acquire(p).1.value) && Acquire(p).1.value.slot in p.free
  {
    if p.free != [] {
      var p' := Acquire(p).0;
      var slot := p.free[|p.free| - 1];
      assert slot in p.free;
      forall s
        ensures s in p'.free <==> 0 <= s < |p'.inUse| && !p'.inUse[s]
      {
        assert s in p'.free ==> s in p.free;
        if s in p.free && s != slot {
          var i :| 0 <= i < |p.free| && p.free[i] == s;
          assert p'.free[i] == s;
        }
      }
    }
  }

  lemma ReleaseKeeps(p: Pool, ref: FrameRef)
    requires PoolInvariant(p)
    ensures PoolInvariant(Release(p, ref).0)
    ensures Release(p, ref).1 <==> Live(p, ref)
    ensures !Live(Release(p, ref).0, ref)
  {
    if Live(p, ref) {
      var p' := Release(p, ref).0;
      assert ref.slot !in p.free;
      forall s
        ensures s in p'.free <==> 0 <= s < |p'.inUse| && !p'.inUse[s]
      {
        assert s in p'.free <==> s in p.free || s == ref.slot;
      }
    }
  }

  // ---------------------------------------------------------------- whole runs

  datatype Op = AcquireOp | ReleaseOp(ref: FrameRef) | WriteOp(ref: FrameRef, frame: RawFrame)

  function Apply(p: Pool, op: Op): (p': Pool)
    requires PoolInvariant(p)
    ensures PoolInvariant(p')
  {
    match op
    case AcquireOp => AcquireKeeps(p); Acquire(p).0
    case ReleaseOp(ref) => ReleaseKeeps(p, ref); Release(p, ref).0
    case WriteOp(ref, frame) => Write(p, ref, frame)
  }

  function Run(p: Pool, ops: seq<Op>): (p': Pool)
    requires PoolInvariant(p)
    ensures PoolInvariant(p')
    decreases |ops|
  {
    if ops == [] then p else Run(Apply(p, ops[0]), ops[1..])
  }

  /** A new pool hands out its slots from 0 upwards, all with generation 1, until none is left. */
  lemma {:induction false} NewPoolCountsUp(capacity: nat, n: nat)
    requires n <= capacity
    ensures PoolInvariant(NewPool(capacity))
    ensures var p := Run(NewPool(capacity), seq(n, i => AcquireOp));
            && p.free == seq(capacity - n, i => capacity - i - 1)
            && p.generations == NewPool(capacity).generations
            && Acquire(p).1 == if n < capacity then Some(FrameRef(n, 1, 0)) else None
    decreases n
  {
    NewPoolInvariant(capacity);
    if n > 0 {
      NewPoolCountsUp(capacity, n - 1);
      var ops := seq(n - 1, i => AcquireOp);
      assert seq(n, i => AcquireOp) == ops + [AcquireOp];
      RunSnoc(NewPool(capacity), ops, AcquireOp);
      AcquireKeeps(Run(NewPool(capacity), ops));
    } else {
      assert seq(n, i => AcquireOp) == [];
    }
  }

  lemma {:induction false} RunSnoc(p: Pool, ops: seq<Op>, op: Op)
    requires PoolInvariant(p)
    ensures Run(p, ops + [op]) == Apply(Run(p, ops), op)
    decreases |ops|
  {
    if ops == [] {
      assert [] + [op] == [op] && [op][1..] == [];
    } else {
      assert (ops + [op])[1..] == ops[1..] + [op];
      RunSnoc(Apply(p, ops[0]), ops[1..], op);
    }
  }

  /** How often `slot` was successfully released along a run. */
  function ReleaseCount(p: Pool, ops: seq<Op>, slot: nat): nat
    requires PoolInvariant(p)
    decreases |ops|
  {
    if ops == [] then 0
    else (if Releases(p, ops[0], slot) then 1 else 0) + ReleaseCount(Apply(p, ops[0]), ops[1..], slot)
  }

  predicate Releases(p: Pool, op: Op, slot: nat)
    requires |p.inUse| == |p.generations|
  {
    op.ReleaseOp? && op.ref.slot == slot && Live(p, op.ref)
  }

  lemma ApplyGeneration(p: Pool, op: Op, slot: nat)
    requires PoolInvariant(p) && slot < |p.generations|
    ensures |Apply(p, op).generations| == |p.generations|
    ensures Apply(p, op).generations[slot]
            == if Releases(p, op, slot) then NextGeneration(p.generations[slot]) else p.generations[slot]
  {
    AcquireKeeps(p);
  }

  /** Generations walk round 1 .. 2^64 - 1. */
  function GenerationAfter(g: nat, releases: nat): nat
    requires 1 <= g
  {
    (g - 1 + releases) % (UINT64_SIZE - 1) + 1
  }

  lemma GenerationStep(g: nat, k: nat)
    requires 1 <= g < UINT64_SIZE
    ensures GenerationAfter(g, 0) == g
    ensures GenerationAfter(NextGeneration(g), k) == GenerationAfter(g, k + 1)
  {
    var m := UINT64_SIZE - 1;
    if g == m {
      assert NextGeneration(g) == 1;
      assert (g - 1 + (k + 1)) % m == (k + m) % m == k % m;
    }
  }

  lemma {:induction false} RunGeneration(p: Pool, ops: seq<Op>, slot: nat)
    requires PoolInvariant(p) && slot < |p.generations|
    ensures |Run(p, ops).generations| == |p.generations|
    ensures Run(p, ops).generations[slot] == GenerationAfter(p.generations[slot], ReleaseCount(p, ops, slot))
    decreases |ops|
  {
    GenerationStep(p.generations[slot], 0);
    if ops != [] {
      var p1 := Apply(p, ops[0]);
      ApplyGeneration(p, ops[0], slot);
      RunGeneration(p1, ops[1..], slot);
      GenerationStep(p.generations[slot], ReleaseCount(p1, ops[1..], slot));
    }
  }

  /**
   From any moment where a handle is live, over every later run of pool calls: `frame` and `release` accept
   it exactly when its slot is in use again and was released a multiple of 2^64 - 1 times in between.
   */
  lemma StaleHandles(p: Pool, ref: FrameRef, ops: seq<Op>)
    requires PoolInvariant(p) && Live(p, ref)
    ensures var p' := Run(p, ops);
            && (Live(p', ref) <==>
                ref.slot < |p'.inUse| && p'.inUse[ref.slot]
                && ReleaseCount(p, ops, ref.slot) % (UINT64_SIZE - 1) == 0)
            && (Release(p', ref).1 <==> Live(p', ref))
  {
    RunGeneration(p, ops, ref.slot);
    RoundTrip(ref.generation, ReleaseCount(p, ops, ref.slot));
  }

  lemma RoundTrip(g: nat, k: nat)
    requires 1 <= g < UINT64_SIZE
    ensures GenerationAfter(g, k) == g <==> k % (UINT64_SIZE - 1) == 0
  {
    var m := UINT64_SIZE - 1;
    var r := k % m;
    assert (g - 1 + k) % m == (g - 1 + r) % m;
  }

  // ---------------------------------------------------------------- the pool object

  class FramePool {
    const slotCount: nat
    const slots: array<RawFrame>
    const generations: array<nat>
    const inUse: array<bool>
    var freeSlots: seq<nat>

    ghost predicate Valid()
      reads this, slots, generations, inUse
    {
      && slots.Length == generations.Length == inUse.Length == slotCount
      && PoolInvariant(View())
    }

    ghost function View(): Pool
      reads this, slots, generations, inUse
    {
      Pool(slots[..], generations[..], inUse[..], freeSlots)
    }

    /** The slot count is stored in 32 bits. */
    constructor (capacity: nat)
      requires capacity < UINT32_SIZE
      ensures Valid() && fresh(slots) && fresh(generations) && fresh(inUse)
      ensures View() == NewPool(capacity)
    {
      slotCount := capacity;
      slots := new RawFrame[capacity](i => BLANK_FRAME);
      generations := new nat[capacity](i => INITIAL_GENERATION);
      inUse := new bool[capacity](i => false);
      freeSlots := [];
      new;
      var built: seq<nat> := [];
      for i := 0 to slotCount
        invariant built == NewPool(slotCount).free[..i]
        invariant slots[..] == NewPool(slotCount).frames && generations[..] == NewPool(slotCount).generations
        invariant inUse[..] == NewPool(slotCount).inUse
        invariant fresh(slots) && fresh(generations) && fresh(inUse)
        invariant slots.Length == generations.Length == inUse.Length == slotCount
      {
        built := built + [slotCount - i - 1];
      }
      freeSlots := built;
      NewPoolInvariant(capacity);
    }

    method AcquireSlot() returns (ref: Option<FrameRef>)
      requires Valid()
      modifies this`freeSlots, slots, generations, inUse
      ensures Valid()
      ensures (View(), ref) == Acquire(old(View()))
    {
      AcquireKeeps(View());
      if freeSlots == [] {
        return None;
      }
      var slot := freeSlots[|freeSlots| - 1];
      assert slot in View().free;
      freeSlots := freeSlots[..|freeSlots| - 1];
      inUse[slot] := true;
      slots[slot] := BLANK_FRAME;
      generations[slot] := NonZero(generations[slot]);
      ref := Some(FrameRef(slot, generations[slot], 0));
    }

    method ReleaseSlot(ref: FrameRef) returns (ok: bool)
      requires Valid()
      modifies this`freeSlots, generations, inUse
      ensures Valid()
      ensures (View(), ok) == Release(old(View()), ref)
    {
      ReleaseKeeps(View(), ref);
      if ref.slot >= slotCount {
        return false;
      }
      if !inUse[ref.slot] {
        return false;
      }
      if ref.generation != generations[ref.slot] {
        return false;
      }
      inUse[ref.slot] := false;
      generations[ref.slot] := (generations[ref.slot] + 1) % UINT64_SIZE;
      if generations[ref.slot] == 0 {
        generations[ref.slot] := INITIAL_GENERATION;
      }
      freeSlots := freeSlots + [ref.slot];
      assert inUse[..] == old(inUse[..])[ref.slot := false];
      assert generations[..] == old(generations[..])[ref.slot := NextGeneration(old(generations[ref.slot]))];
      return true;
    }

    /** The slot behind a handle, or nothing where the program returns a null pointer. */
    method Frame(ref: FrameRef) returns (slot: Option<nat>)
      requires Valid()
      ensures slot == if Live(View(), ref) then Some(ref.slot) else None
    {
      if ref.slot >= slotCount || !inUse[ref.slot] || ref.generation != generations[ref.slot] {
        return None;
      }
      return Some(ref.slot);
    }

    method WriteSlot(ref: FrameRef, frame: RawFrame)
      requires Valid() && Live(View(), ref)
      modifies slots
      ensures Valid()
      ensures View() == Write(old(View()), ref, frame)
    {
      slots[ref.slot] := frame;
    }
  }
}
