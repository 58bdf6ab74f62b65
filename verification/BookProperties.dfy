/** What the order book promises over every sequence of events. */
module BookProperties {
  import opened MarketTypes
  import opened BookModel

  // ---------------------------------------------------------------- modes and delta accounting

  ghost predicate SaneLevels(m: Levels) {
    forall p :: p in m ==> 0 <= p && 0 < m[p]
  }

  /** The three modes: buffering (bounded), live (buffer empty), desynced (buffer empty, no sequence). */
  ghost predicate ModeInvariant(b: Book) {
    && |b.pending| <= MAX_PENDING
    && (b.hasSnapshot || b.desynced ==> b.pending == [])
    && (b.desynced ==> !b.hasSnapshot && b.lastSeq == None)
    && SaneLevels(b.bids)
    && SaneLevels(b.asks)
  }

  /** How often a delta found the buffer full along a run. */
  function OverflowCount(b: Book, es: seq<Event>): nat
    decreases |es|
  {
    if es == [] then 0 else OverflowHit(b, es[0]) + OverflowCount(Step(b, es[0]).0, es[1..])
  }

  function OverflowHit(b: Book, e: Event): nat {
    if e.eventType == DeltaType && e.data.DeltaPayload? && Overflows(b) then 1 else 0
  }

  function Accounted(b: Book): int {
    |b.pending| + b.counts.replayed + b.counts.droppedPending - b.counts.buffered
  }

  lemma {:induction false} LoadLevelsSane(m: Levels, ls: seq<Level>)
    requires SaneLevels(m)
    ensures SaneLevels(LoadLevels(m, ls).0)
    decreases |ls|
  {
    if ls != [] && ValidLevel(ls[0]) {
      LoadLevelsSane(m[ls[0].price := ls[0].qty], ls[1..]);
    }
  }

  /** Replay ends with an empty buffer, live or desynced, and every buffered delta is accounted for. */
  lemma {:induction false} ReplayKeeps(b: Book)
    requires b.hasSnapshot && !b.desynced && SaneLevels(b.bids) && SaneLevels(b.asks)
    ensures var (b', ok) := Replay(b);
            && b'.pending == [] && b'.hasSnapshot == ok && b'.desynced == !ok
            && (!ok ==> b'.lastSeq == None)
            && SaneLevels(b'.bids) && SaneLevels(b'.asks)
            && Accounted(b') == Accounted(b)
    decreases |b.pending|
  {
    if b.pending != [] {
      var (b1, ok) := ReplayHead(b);
      if ok {
        ReplayKeeps(b1);
      }
    }
  }

  lemma SnapshotKeepsMode(b: Book, e: Event)
    requires ModeInvariant(b)
    ensures ModeInvariant(ApplySnapshotEvent(b, e).0)
    ensures Accounted(ApplySnapshotEvent(b, e).0) == Accounted(b)
  {
    if e.data.SnapshotPayload? {
      LoadLevelsSane(map[], e.data.snapshot.bids);
      LoadLevelsSane(map[], e.data.snapshot.asks);
      var (b1, loaded) := LoadSnapshot(b, e.data.snapshot);
      if loaded {
        ReplayKeeps(b1.(hasSnapshot := true, desynced := false, lastSeq := e.Seq(),
                        counts := b1.counts.(snapshots := b1.counts.snapshots + 1)));
      }
    }
  }

  lemma DeltaKeepsMode(b: Book, e: Event)
    requires ModeInvariant(b)
    ensures ModeInvariant(ApplyDeltaEvent(b, e).0)
    ensures Accounted(ApplyDeltaEvent(b, e).0) == Accounted(b) + if e.data.DeltaPayload? && Overflows(b) then 1 else 0
  {
  }

  lemma StepKeepsMode(b: Book, e: Event)
    requires ModeInvariant(b)
    ensures ModeInvariant(Step(b, e).0)
    ensures Accounted(Step(b, e).0) == Accounted(b) + OverflowHit(b, e)
  {
    SnapshotKeepsMode(b, e);
    DeltaKeepsMode(b, e);
  }

  lemma {:induction false} RunKeepsMode(b: Book, es: seq<Event>)
    requires ModeInvariant(b)
    ensures ModeInvariant(Run(b, es))
    ensures Accounted(Run(b, es)) == Accounted(b) + OverflowCount(b, es)
    decreases |es|
  {
    if es != [] {
      StepKeepsMode(b, es[0]);
      RunKeepsMode(Step(b, es[0]).0, es[1..]);
    }
  }

  /** Every delta that ever met a book without a snapshot is pending, replayed or dropped. */
  lemma DeltaAccounting(es: seq<Event>)
    ensures var b := Run(FRESH, es);
            && ModeInvariant(b)
            && b.counts.buffered + OverflowCount(FRESH, es)
               == |b.pending| + b.counts.replayed + b.counts.droppedPending
  {
    RunKeepsMode(FRESH, es);
  }

  // ---------------------------------------------------------------- buffered replay keeps the meaning

  predicate IsDelta(e: Event) {
    e.eventType == DeltaType && e.data.DeltaPayload?
  }

  predicate AllDeltas(es: seq<Event>) {
    forall i :: 0 <= i < |es| ==> IsDelta(es[i])
  }

  predicate IsValidSnapshot(e: Event) {
    && e.eventType == SnapshotType && e.data.SnapshotPayload?
    && (forall i :: 0 <= i < |e.data.snapshot.bids| ==> ValidLevel(e.data.snapshot.bids[i]))
    && (forall i :: 0 <= i < |e.data.snapshot.asks| ==> ValidLevel(e.data.snapshot.asks[i]))
  }

  /**
   Whether replay meets no malformed delta with a passing sequence id. It looks only at the snapshot's
   sequence id and the buffered deltas, so a caller can evaluate it before the snapshot is applied.
   */
  predicate ReplayClean(last: Option<nat>, es: seq<Event>)
    requires AllDeltas(es)
    decreases |es|
  {
    es == [] ||
    if !Newer(last, es[0].Seq()) then ReplayClean(last, es[1..])
    else WellFormed(es[0].data.delta) && ReplayClean(Advanced(last, es[0].Seq()), es[1..])
  }

  function AsPending(es: seq<Event>): seq<Pending>
    requires AllDeltas(es)
  {
    seq(|es|, i requires 0 <= i < |es| => Pending(es[i].Seq(), es[i].data.delta))
  }

  predicate SameBook(x: Book, y: Book) {
    && x.bids == y.bids && x.asks == y.asks && x.lastSeq == y.lastSeq
    && x.counts.deltas == y.counts.deltas && x.counts.stale == y.counts.stale
    && x.hasSnapshot == y.hasSnapshot && x.desynced == y.desynced
  }

  lemma {:induction false} LoadValidLevels(m: Levels, ls: seq<Level>)
    requires forall i :: 0 <= i < |ls| ==> ValidLevel(ls[i])
    ensures LoadLevels(m, ls).1
    decreases |ls|
  {
    if ls != [] {
      LoadValidLevels(m[ls[0].price := ls[0].qty], ls[1..]);
    }
  }

  /** Before the snapshot, deltas only fill the buffer. */
  lemma {:induction false} BufferAll(b: Book, es: seq<Event>)
    requires AllDeltas(es) && !b.hasSnapshot && !b.desynced && |b.pending| + |es| <= MAX_PENDING
    ensures Run(b, es) == b.(pending := b.pending + AsPending(es),
                             counts := b.counts.(buffered := b.counts.buffered + |es|))
    decreases |es|
  {
    if es != [] {
      var b1 := Step(b, es[0]).0;
      BufferAll(b1, es[1..]);
      assert b1.pending + AsPending(es[1..]) == b.pending + AsPending(es);
    } else {
      assert b.pending + AsPending(es) == b.pending;
    }
  }

  /** A live book stays live under any deltas. */
  lemma {:induction false} LiveStaysLive(b: Book, es: seq<Event>)
    requires AllDeltas(es) && b.hasSnapshot && !b.desynced
    ensures Run(b, es).hasSnapshot && !Run(b, es).desynced
    decreases |es|
  {
    if es != [] {
      LiveStaysLive(Step(b, es[0]).0, es[1..]);
    }
  }

  /** One buffered delta replayed, and the same delta applied live. */
  lemma ReplayHeadFollowsLive(buffered: Book, live: Book, e: Event)
    requires IsDelta(e) && buffered.pending != [] && buffered.pending[0] == Pending(e.Seq(), e.data.delta)
    requires SameBook(buffered, live) && live.hasSnapshot && !live.desynced
    ensures var (b1, ok) := ReplayHead(buffered);
            var l1 := Step(live, e).0;
            && b1.pending == (if ok then buffered.pending[1..] else [])
            && (ok <==> Newer(live.lastSeq, e.Seq()) ==> WellFormed(e.data.delta))
            && (if ok then SameBook(b1, l1) else b1.desynced)
            && l1.hasSnapshot && !l1.desynced
            && l1.lastSeq == (if Newer(live.lastSeq, e.Seq()) then Advanced(live.lastSeq, e.Seq()) else live.lastSeq)
  {
  }

  /** Replaying the buffer step by step follows the live application of the same deltas. */
  lemma {:induction false} ReplayFollowsLive(buffered: Book, live: Book, es: seq<Event>)
    requires AllDeltas(es)
    requires buffered.pending == AsPending(es)
    requires SameBook(buffered, live) && live.hasSnapshot && !live.desynced
    ensures Replay(buffered).1 == ReplayClean(live.lastSeq, es)
    ensures Replay(buffered).1 ==> SameBook(Replay(buffered).0, Run(live, es))
    ensures !Replay(buffered).1 ==> Replay(buffered).0.desynced
    decreases |es|
  {
    if es != [] {
      assert buffered.pending[1..] == AsPending(es[1..]);
      var (b1, ok) := ReplayHead(buffered);
      ReplayHeadFollowsLive(buffered, live, es[0]);
      if ok {
        ReplayFollowsLive(b1, Step(live, es[0]).0, es[1..]);
      }
    }
  }

  /**
   Deltas that arrive before their snapshot mean the same as deltas that arrive after it, exactly when
   replay meets no malformed delta with a passing sequence id. In particular well-formed deltas always do.
   */
  lemma BufferedReplayKeepsMeaning(es: seq<Event>, snapshot: Event)
    requires AllDeltas(es) && |es| <= MAX_PENDING && IsValidSnapshot(snapshot)
    ensures SameBook(Step(Run(FRESH, es), snapshot).0, Run(Step(FRESH, snapshot).0, es))
            <==> ReplayClean(snapshot.Seq(), es)
  {
    BufferAll(FRESH, es);
    var buffered := Run(FRESH, es);
    assert [] + AsPending(es) == AsPending(es);
    var start := SnapshotStart(buffered, snapshot);
    var live := SnapshotStart(FRESH, snapshot);
    SnapshotStarts(buffered, snapshot);
    SnapshotStarts(FRESH, snapshot);
    ReplayFollowsLive(start, live, es);
    LiveStaysLive(live, es);
  }

  /** The book a valid snapshot leaves just before the buffer is replayed. */
  function SnapshotStart(b: Book, e: Event): Book
    requires e.data.SnapshotPayload?
  {
    b.(bids := LoadLevels(map[], e.data.snapshot.bids).0, asks := LoadLevels(map[], e.data.snapshot.asks).0,
       hasSnapshot := true, desynced := false, lastSeq := e.Seq(),
       counts := b.counts.(snapshots := b.counts.snapshots + 1))
  }

  lemma SnapshotStarts(b: Book, e: Event)
    requires IsValidSnapshot(e)
    ensures var (b', ok) := Replay(SnapshotStart(b, e));
            Step(b, e) == (if ok then b' else Rejected(b'), ok)
  {
    LoadValidLevels(map[], e.data.snapshot.bids);
    LoadValidLevels(map[], e.data.snapshot.asks);
  }

  lemma {:induction false} WellFormedReplaysClean(last: Option<nat>, es: seq<Event>)
    requires AllDeltas(es) && forall i :: 0 <= i < |es| ==> WellFormed(es[i].data.delta)
    ensures ReplayClean(last, es)
    decreases |es|
  {
    if es != [] {
      WellFormedReplaysClean(last, es[1..]);
      WellFormedReplaysClean(Advanced(last, es[0].Seq()), es[1..]);
    }
  }

  /** The failing family is real: one malformed delta in the buffer throws the snapshot away. */
  lemma MalformedReplayDesyncs()
    ensures var bad := Event(DeltaType, "M", None, 0, DeltaPayload(DeltaData(UnknownSide, 1, 1)));
            var snap := Event(SnapshotType, "M", None, 0, SnapshotPayload(SnapshotData([Level(5, 7)], [])));
            && Step(Run(FRESH, [bad]), snap).0.desynced
            && Run(Step(FRESH, snap).0, [bad]).bids == map[5 := 7]
  {
    var bad := Event(DeltaType, "M", None, 0, DeltaPayload(DeltaData(UnknownSide, 1, 1)));
    var snap := Event(SnapshotType, "M", None, 0, SnapshotPayload(SnapshotData([Level(5, 7)], [])));
    BufferAll(FRESH, [bad]);
    assert AsPending([bad]) == [Pending(None, DeltaData(UnknownSide, 1, 1))];
    assert LoadLevels(map[], [Level(5, 7)]) == (map[5 := 7], true);
    var live := Step(FRESH, snap).0;
    assert live.bids == map[5 := 7];
    assert Run(live, [bad]) == Run(Step(live, bad).0, []);
  }

  // ---------------------------------------------------------------- levels in closed form

  function Sum(ds: seq<int>): int {
    if ds == [] then 0 else Sum(ds[..|ds| - 1]) + ds[|ds| - 1]
  }

  /** The lowest of the running sums q0, q0 + ds[0], q0 + ds[0] + ds[1], ... */
  function Lowest(q0: int, ds: seq<int>): int {
    if ds == [] then q0 else Min(Lowest(q0, ds[..|ds| - 1]), q0 + Sum(ds))
  }

  function ClosedForm(q0: int, ds: seq<int>): int {
    q0 + Sum(ds) - Min(0, Lowest(q0, ds))
  }

  lemma {:induction false} LowestIsMinimum(q0: int, ds: seq<int>)
    ensures forall k :: 0 <= k <= |ds| ==> Lowest(q0, ds) <= q0 + Sum(ds[..k])
    ensures exists k :: 0 <= k <= |ds| && Lowest(q0, ds) == q0 + Sum(ds[..k])
  {
    assert ds[..|ds|] == ds;
    if ds != [] {
      var front := ds[..|ds| - 1];
      LowestIsMinimum(q0, front);
      forall k | 0 <= k <= |ds|
        ensures Lowest(q0, ds) <= q0 + Sum(ds[..k])
      {
        if k < |ds| {
          assert ds[..k] == front[..k];
        }
      }
      var j :| 0 <= j <= |front| && Lowest(q0, front) == q0 + Sum(front[..j]);
      assert ds[..j] == front[..j];
      var k := if Lowest(q0, front) < q0 + Sum(ds) then j else |ds|;
      assert Lowest(q0, ds) == q0 + Sum(ds[..k]);
    } else {
      assert ds[..0] == [];
    }
  }

  /** What fed the current levels: the levels of the last snapshot and the deltas accepted since. */
  datatype History = History(bids: seq<Level>, asks: seq<Level>, trail: seq<DeltaData>)

  const NO_HISTORY := History([], [], [])

  function ValidPrefix(ls: seq<Level>): seq<Level> {
    if ls == [] || !ValidLevel(ls[0]) then [] else [ls[0]] + ValidPrefix(ls[1..])
  }

  /** Deltas that replay accepts, in order. */
  function ReplayTrail(last: Option<nat>, ps: seq<Pending>, done: seq<DeltaData>): seq<DeltaData>
    decreases |ps|
  {
    if ps == [] then done
    else if !Newer(last, ps[0].seqId) then ReplayTrail(last, ps[1..], done)
    else ReplayTrail(Advanced(last, ps[0].seqId), ps[1..], done + [ps[0].delta])
  }

  function HistoryStep(b: Book, h: History, e: Event): History {
    var (b', ok) := Step(b, e);
    if e.eventType == SnapshotType && e.data.SnapshotPayload? then
      var bids := ValidPrefix(e.data.snapshot.bids);
      var asks := if bids == e.data.snapshot.bids then ValidPrefix(e.data.snapshot.asks) else [];
      if ok then History(bids, asks, ReplayTrail(e.Seq(), b.pending, []))
      else if LoadSnapshot(b, e.data.snapshot).1 then NO_HISTORY
      else History(bids, asks, [])
    else if IsDelta(e) && Overflows(b) then NO_HISTORY
    else if IsDelta(e) && b.hasSnapshot && ok then h.(trail := h.trail + [e.data.delta])
    else h
  }

  function HistoryRun(b: Book, h: History, es: seq<Event>): History
    decreases |es|
  {
    if es == [] then h else HistoryRun(Step(b, es[0]).0, HistoryStep(b, h, es[0]), es[1..])
  }

  /** The quantity a list of levels leaves at a price: the last entry for that price counts. */
  function ListedQty(ls: seq<Level>, price: int): int {
    if ls == [] then 0
    else if ls[|ls| - 1].price == price then ls[|ls| - 1].qty
    else ListedQty(ls[..|ls| - 1], price)
  }

  function ChangesAt(trail: seq<DeltaData>, buy: bool, price: int): seq<int> {
    if trail == [] then []
    else
      var d := trail[|trail| - 1];
      var before := ChangesAt(trail[..|trail| - 1], buy, price);
      if BuySide(d.side) == buy && d.price == price then before + [d.qty] else before
  }

  ghost predicate SideFollows(m: Levels, base: seq<Level>, trail: seq<DeltaData>, buy: bool) {
    forall p :: QtyAt(m, p) == ClosedForm(ListedQty(base, p), ChangesAt(trail, buy, p))
  }

  ghost predicate LevelsFollow(b: Book, h: History) {
    SideFollows(b.bids, h.bids, h.trail, true) && SideFollows(b.asks, h.asks, h.trail, false)
  }

  lemma ClosedFormGrows(q0: int, ds: seq<int>, d: int)
    ensures ClosedForm(q0, ds + [d]) == Max(0, ClosedForm(q0, ds) + d)
  {
    assert (ds + [d])[..|ds|] == ds;
  }

  lemma {:induction false} ListedNonNegative(ls: seq<Level>, price: int)
    requires forall i :: 0 <= i < |ls| ==> ValidLevel(ls[i])
    ensures 0 <= ListedQty(ls, price) && ClosedForm(ListedQty(ls, price), []) == ListedQty(ls, price)
  {
    if ls != [] {
      ListedNonNegative(ls[..|ls| - 1], price);
    }
  }

  lemma {:induction false} ValidPrefixValid(ls: seq<Level>)
    ensures forall i :: 0 <= i < |ValidPrefix(ls)| ==> ValidLevel(ValidPrefix(ls)[i])
    ensures LoadLevels(map[], ls).1 <==> ValidPrefix(ls) == ls
    decreases |ls|
  {
    LoadedIsPrefix(map[], ls);
    if ls != [] && ValidLevel(ls[0]) {
      ValidPrefixValid(ls[1..]);
    }
  }

  lemma {:induction false} LoadedIsPrefix(m: Levels, ls: seq<Level>)
    ensures LoadLevels(m, ls).1 <==> ValidPrefix(ls) == ls
    decreases |ls|
  {
    if ls != [] && ValidLevel(ls[0]) {
      LoadedIsPrefix(m[ls[0].price := ls[0].qty], ls[1..]);
      assert ls == [ls[0]] + ls[1..];
      assert ValidPrefix(ls)[1..] == ValidPrefix(ls[1..]);
    }
  }

  /** Loading levels into `m`, price by price. `done` are the levels already in `m`. */
  lemma {:induction false} LoadedQty(m: Levels, done: seq<Level>, ls: seq<Level>, price: int)
    requires QtyAt(m, price) == ListedQty(done, price)
    ensures QtyAt(LoadLevels(m, ls).0, price) == ListedQty(done + ValidPrefix(ls), price)
    decreases |ls|
  {
    if ls == [] || !ValidLevel(ls[0]) {
      assert done + ValidPrefix(ls) == done;
    } else {
      assert (done + [ls[0]])[..|done|] == done;
      LoadedQty(m[ls[0].price := ls[0].qty], done + [ls[0]], ls[1..], price);
      assert done + [ls[0]] + ValidPrefix(ls[1..]) == done + ValidPrefix(ls);
    }
  }

  lemma SnapshotFollows(b: Book, s: SnapshotData)
    ensures var bids := ValidPrefix(s.bids);
            var asks := if bids == s.bids then ValidPrefix(s.asks) else [];
            LevelsFollow(LoadSnapshot(b, s).0, History(bids, asks, []))
  {
    var bids := ValidPrefix(s.bids);
    var asks := if bids == s.bids then ValidPrefix(s.asks) else [];
    ValidPrefixValid(s.bids);
    ValidPrefixValid(s.asks);
    forall p: int
      ensures QtyAt(LoadSnapshot(b, s).0.bids, p) == ClosedForm(ListedQty(bids, p), ChangesAt([], true, p))
      ensures QtyAt(LoadSnapshot(b, s).0.asks, p) == ClosedForm(ListedQty(asks, p), ChangesAt([], false, p))
    {
      LoadedQty(map[], [], s.bids, p);
      LoadedQty(map[], [], s.asks, p);
      assert [] + ValidPrefix(s.bids) == ValidPrefix(s.bids);
      assert [] + ValidPrefix(s.asks) == ValidPrefix(s.asks);
      ListedNonNegative(bids, p);
      ListedNonNegative(asks, p);
    }
  }

  lemma DeltaAtPrice(m: Levels, q0: int, trail: seq<DeltaData>, buy: bool, d: DeltaData, p: int)
    requires QtyAt(m, p) == ClosedForm(q0, ChangesAt(trail, buy, p))
    requires BuySide(d.side) == buy
    ensures QtyAt(AdjustLevel(m, d.price, d.qty), p) == ClosedForm(q0, ChangesAt(trail + [d], buy, p))
  {
    assert (trail + [d])[..|trail|] == trail;
    if d.price == p {
      ClosedFormGrows(q0, ChangesAt(trail, buy, p), d.qty);
    }
  }

  lemma DeltaFollowsSide(m: Levels, base: seq<Level>, trail: seq<DeltaData>, buy: bool, d: DeltaData)
    requires SideFollows(m, base, trail, buy)
    ensures SideFollows(if BuySide(d.side) == buy then AdjustLevel(m, d.price, d.qty) else m, base, trail + [d], buy)
  {
    if BuySide(d.side) == buy {
      forall p: int
        ensures QtyAt(AdjustLevel(m, d.price, d.qty), p)
                == ClosedForm(ListedQty(base, p), ChangesAt(trail + [d], buy, p))
      {
        DeltaAtPrice(m, ListedQty(base, p), trail, buy, d, p);
      }
    } else {
      assert (trail + [d])[..|trail|] == trail;
    }
  }

  lemma DeltaFollows(b: Book, h: History, d: DeltaData)
    requires LevelsFollow(b, h) && WellFormed(d)
    ensures LevelsFollow(ApplyDelta(b, d).0, h.(trail := h.trail + [d]))
  {
    DeltaFollowsSide(b.bids, h.bids, h.trail, true, d);
    DeltaFollowsSide(b.asks, h.asks, h.trail, false, d);
  }

  lemma FreshFollows(b: Book)
    requires b.bids == map[] && b.asks == map[]
    ensures LevelsFollow(b, NO_HISTORY)
  {
  }

  lemma {:induction false} ReplayFollows(b: Book, h: History)
    requires LevelsFollow(b, h)
    ensures var (b', ok) := Replay(b);
            LevelsFollow(b', if ok then h.(trail := ReplayTrail(b.lastSeq, b.pending, h.trail)) else NO_HISTORY)
    decreases |b.pending|
  {
    if b.pending != [] {
      var (b1, ok) := ReplayHead(b);
      var d := b.pending[0].delta;
      if !ok {
        FreshFollows(b1);
      } else if !Newer(b.lastSeq, b.pending[0].seqId) {
        ReplayFollows(b1, h);
      } else {
        DeltaFollows(b, h, d);
        ReplayFollows(b1, h.(trail := h.trail + [d]));
      }
    }
  }

  lemma SnapshotEventFollows(b: Book, h: History, e: Event)
    requires e.eventType == SnapshotType && e.data.SnapshotPayload?
    ensures LevelsFollow(ApplySnapshotEvent(b, e).0, HistoryStep(b, h, e))
  {
    var (b1, loaded) := LoadSnapshot(b, e.data.snapshot);
    SnapshotFollows(b, e.data.snapshot);
    if loaded {
      var bids := ValidPrefix(e.data.snapshot.bids);
      var asks := if bids == e.data.snapshot.bids then ValidPrefix(e.data.snapshot.asks) else [];
      ReplayFollows(b1.(hasSnapshot := true, desynced := false, lastSeq := e.Seq(),
                        counts := b1.counts.(snapshots := b1.counts.snapshots + 1)),
                    History(bids, asks, []));
    }
  }

  lemma DeltaEventFollows(b: Book, h: History, e: Event)
    requires LevelsFollow(b, h) && e.eventType == DeltaType
    ensures LevelsFollow(ApplyDeltaEvent(b, e).0, HistoryStep(b, h, e))
  {
    if IsDelta(e) && Overflows(b) {
      FreshFollows(ApplyDeltaEvent(b, e).0);
    } else if IsDelta(e) && ApplyDeltaEvent(b, e).1 && b.hasSnapshot {
      DeltaFollows(b, h, e.data.delta);
    }
  }

  lemma StepFollows(b: Book, h: History, e: Event)
    requires LevelsFollow(b, h)
    ensures LevelsFollow(Step(b, e).0, HistoryStep(b, h, e))
  {
    if e.eventType == SnapshotType {
      if e.data.SnapshotPayload? {
        SnapshotEventFollows(b, h, e);
      }
    } else if e.eventType == DeltaType {
      DeltaEventFollows(b, h, e);
    }
  }

  lemma {:induction false} RunFollows(b: Book, h: History, es: seq<Event>)
    requires LevelsFollow(b, h)
    ensures LevelsFollow(Run(b, es), HistoryRun(b, h, es))
    decreases |es|
  {
    if es != [] {
      StepFollows(b, h, es[0]);
      RunFollows(Step(b, es[0]).0, HistoryStep(b, h, es[0]), es[1..]);
    }
  }

  /**
   In every run and at every price, the quantity is S_n - min(0, min_k S_k) over the running sums S_k of
   the last snapshot's quantity and the deltas accepted since. This includes runs with rejected snapshots:
   those leave the valid prefix of their levels as the new starting point.
   */
  lemma LevelsInClosedForm(es: seq<Event>)
    ensures LevelsFollow(Run(FRESH, es), HistoryRun(FRESH, NO_HISTORY, es))
  {
    FreshFollows(FRESH);
    RunFollows(FRESH, NO_HISTORY, es);
  }

  /** An accepted snapshot is its own starting point, in full. */
  lemma AcceptedSnapshotIsBase(b: Book, h: History, e: Event)
    requires e.eventType == SnapshotType && Step(b, e).1
    ensures e.data.SnapshotPayload?
    ensures HistoryStep(b, h, e).bids == e.data.snapshot.bids && HistoryStep(b, h, e).asks == e.data.snapshot.asks
  {
    ValidPrefixValid(e.data.snapshot.bids);
    ValidPrefixValid(e.data.snapshot.asks);
  }

  lemma {:induction false} FailedReplayEmpties(b: Book)
    requires !Replay(b).1
    ensures var b' := Replay(b).0; b'.desynced && b'.bids == map[] && b'.asks == map[]
    decreases |b.pending|
  {
    if ReplayHead(b).1 {
      FailedReplayEmpties(ReplayHead(b).0);
    }
  }

  /**
   A rejected snapshot is not a no-op. With an invalid level in it, the book holds the levels listed before the first
   such level, bids first; without one, a malformed buffered delta was at fault and the book is desynced and empty.
   */
  lemma RejectedSnapshotLeavesPrefix(b: Book, e: Event, price: int)
    requires e.eventType == SnapshotType && e.data.SnapshotPayload? && !Step(b, e).1
    ensures var b', bids, asks := Step(b, e).0, e.data.snapshot.bids, e.data.snapshot.asks;
            if ValidPrefix(bids) == bids && ValidPrefix(asks) == asks
            then b'.desynced && b'.bids == map[] && b'.asks == map[]
            else && QtyAt(b'.bids, price) == ListedQty(ValidPrefix(bids), price)
                 && QtyAt(b'.asks, price)
                     == (if ValidPrefix(bids) == bids then ListedQty(ValidPrefix(asks), price) else 0)
  {
    var bids, asks := e.data.snapshot.bids, e.data.snapshot.asks;
    LoadedIsPrefix(map[], bids);
    LoadedIsPrefix(map[], asks);
    LoadedQty(map[], [], bids, price);
    LoadedQty(map[], [], asks, price);
    assert [] + ValidPrefix(bids) == ValidPrefix(bids) && [] + ValidPrefix(asks) == ValidPrefix(asks);
    if LoadSnapshot(b, e.data.snapshot).1 {
      FailedReplayEmpties(SnapshotStart(b, e));
    }
  }

  // ---------------------------------------------------------------- books do not see each other

  function OnlyMarket(es: seq<Event>, market: string): seq<Event> {
    if es == [] then []
    else if Addressed(es[0]) && es[0].market == market then [es[0]] + OnlyMarket(es[1..], market)
    else OnlyMarket(es[1..], market)
  }

  /** A market's book in a shared store is the book of that market's own events. */
  lemma {:induction false} MarketsAreIsolated(st: Store, es: seq<Event>, market: string)
    ensures BookOf(StoreRun(st, es), market) == Run(BookOf(st, market), OnlyMarket(es, market))
    decreases |es|
  {
    if es != [] {
      MarketsAreIsolated(StoreStep(st, es[0]).0, es[1..], market);
      if Addressed(es[0]) && es[0].market == market {
        var own := OnlyMarket(es, market);
        assert own[0] == es[0] && own[1..] == OnlyMarket(es[1..], market);
      }
    }
  }
}
