/**
 What one event does to one order book, as functions on values. `BookStore.dfy` holds the
 mutable objects and proves that their methods compute these functions; `BookProperties.dfy`
 proves what the functions promise over whole event sequences.
 */
module BookModel {
  import opened MarketTypes

  type Levels = map<int, int>

  datatype Level = Level(price: int, qty: int)
  datatype SnapshotData = SnapshotData(bids: seq<Level>, asks: seq<Level>)
  datatype DeltaData = DeltaData(side: Side, price: int, qty: int)
  datatype TradeData = TradeData(price: int, qty: int, aggressor: Side, tradeId: Option<string>)

  datatype EventType = UnknownType | SnapshotType | DeltaType | TradeType | HeartbeatType | StatusType
  datatype EventData =
    | NoData
    | SnapshotPayload(snapshot: SnapshotData)
    | DeltaPayload(delta: DeltaData)
    | TradePayload(trade: TradeData)

  datatype Event = Event(eventType: EventType, market: string, rawSeq: Option<nat>, metaSeq: nat, data: EventData)
  {
    function Seq(): Option<nat> {
      if rawSeq.Some? then rawSeq
      else if metaSeq != 0 then Some(metaSeq)
      else None
    }
  }

  datatype Pending = Pending(seqId: Option<nat>, delta: DeltaData)

  const MAX_PENDING: nat := 512

  datatype Counts = Counts(
    snapshots: nat,
    deltas: nat,
    trades: nat,
    buffered: nat,
    replayed: nat,
    droppedPending: nat,
    desyncs: nat,
    stale: nat,
    rejects: nat)

  datatype Book = Book(
    lastSeq: Option<nat>,
    hasSnapshot: bool,
    desynced: bool,
    bids: Levels,
    asks: Levels,
    pending: seq<Pending>,
    lastTrade: Option<TradeData>,
    counts: Counts)

  const FRESH: Book := Book(None, false, false, map[], map[], [], None, Counts(0, 0, 0, 0, 0, 0, 0, 0, 0))

  function Desynced(b: Book, dropped: nat): Book {
    b.(desynced := true,
       hasSnapshot := false,
       lastSeq := None,
       bids := map[],
       asks := map[],
       pending := [],
       counts := b.counts.(desyncs := if b.desynced then b.counts.desyncs else b.counts.desyncs + 1,
                           droppedPending := b.counts.droppedPending + dropped))
  }

  /** A sequence id passes when there is none, or nothing to compare it with, or it is newer. */
  predicate Newer(last: Option<nat>, next: Option<nat>) {
    next.None? || last.None? || last.value < next.value
  }

  function Advanced(last: Option<nat>, next: Option<nat>): Option<nat> {
    if next.None? then last else next
  }

  function AdvanceSeq(b: Book, next: Option<nat>): (Book, bool) {
    if Newer(b.lastSeq, next) then (b.(lastSeq := Advanced(b.lastSeq, next)), true)
    else (b.(counts := b.counts.(stale := b.counts.stale + 1)), false)
  }

  predicate ValidLevel(l: Level) {
    0 <= l.price && 0 < l.qty
  }

  /** Levels load front to back and stop at the first bad one; what was loaded stays. */
  function LoadLevels(m: Levels, ls: seq<Level>): (Levels, bool)
    decreases |ls|
  {
    if ls == [] then (m, true)
    else if !ValidLevel(ls[0]) then (m, false)
    else LoadLevels(m[ls[0].price := ls[0].qty], ls[1..])
  }

  function LoadSnapshot(b: Book, s: SnapshotData): (Book, bool) {
    var (bids, bidsOk) := LoadLevels(map[], s.bids);
    if !bidsOk then (b.(bids := bids, asks := map[]), false)
    else
      var (asks, asksOk) := LoadLevels(map[], s.asks);
      (b.(bids := bids, asks := asks), asksOk)
  }

  function QtyAt(m: Levels, price: int): int {
    if price in m then m[price] else 0
  }

  function AdjustLevel(m: Levels, price: int, change: int): Levels {
    var updated := QtyAt(m, price) + change;
    if updated <= 0 then m - {price} else m[price := updated]
  }

  predicate BuySide(side: Side) {
    side == Bid || side == Buy
  }

  predicate WellFormed(d: DeltaData) {
    0 <= d.price && d.side != UnknownSide
  }

  function ApplyDelta(b: Book, d: DeltaData): (Book, bool) {
    if !WellFormed(d) then (b, false)
    else if BuySide(d.side) then (b.(bids := AdjustLevel(b.bids, d.price, d.qty)), true)
    else (b.(asks := AdjustLevel(b.asks, d.price, d.qty)), true)
  }

  /** Takes the first buffered delta: a stale one is dropped, a malformed one desyncs the book. */
  function ReplayHead(b: Book): (r: (Book, bool))
    requires b.pending != []
    ensures |r.0.pending| < |b.pending|
  {
    var p := b.pending[0];
    var (b1, newer) := AdvanceSeq(b.(pending := b.pending[1..]), p.seqId);
    if !newer then (b1.(counts := b1.counts.(droppedPending := b1.counts.droppedPending + 1)), true)
    else
      var (b2, ok) := ApplyDelta(b1, p.delta);
      if !ok then (Desynced(b2, |b2.pending| + 1), false)
      else (b2.(counts := b2.counts.(deltas := b2.counts.deltas + 1, replayed := b2.counts.replayed + 1)), true)
  }

  function Replay(b: Book): (Book, bool)
    decreases |b.pending|
  {
    if b.pending == [] then (b, true)
    else
      var (b1, ok) := ReplayHead(b);
      if ok then Replay(b1) else (b1, false)
  }

  function Rejected(b: Book): Book {
    b.(counts := b.counts.(rejects := b.counts.rejects + 1))
  }

  function ApplySnapshotEvent(b: Book, e: Event): (Book, bool) {
    if !e.data.SnapshotPayload? then (Rejected(b), false)
    else
      var (b1, loaded) := LoadSnapshot(b, e.data.snapshot);
      if !loaded then (Rejected(b1), false)
      else
        var (b2, replayed) := Replay(b1.(hasSnapshot := true, desynced := false, lastSeq := e.Seq(),
                                         counts := b1.counts.(snapshots := b1.counts.snapshots + 1)));
        (if replayed then b2 else Rejected(b2), replayed)
  }

  /** A live delta: the sequence advances before the payload is checked. */
  function ApplyLiveDelta(b: Book, seqId: Option<nat>, d: DeltaData): (Book, bool) {
    var (b1, newer) := AdvanceSeq(b, seqId);
    if !newer then (Rejected(b1), false)
    else
      var (b2, ok) := ApplyDelta(b1, d);
      if !ok then (Rejected(b2), false)
      else (b2.(counts := b2.counts.(deltas := b2.counts.deltas + 1)), true)
  }

  predicate Overflows(b: Book) {
    !b.desynced && !b.hasSnapshot && MAX_PENDING <= |b.pending|
  }

  function ApplyDeltaEvent(b: Book, e: Event): (Book, bool) {
    if !e.data.DeltaPayload? || b.desynced then (Rejected(b), false)
    else if Overflows(b) then (Rejected(Desynced(b, |b.pending| + 1)), false)
    else if !b.hasSnapshot then
      (b.(pending := b.pending + [Pending(e.Seq(), e.data.delta)],
          counts := b.counts.(buffered := b.counts.buffered + 1)), true)
    else ApplyLiveDelta(b, e.Seq(), e.data.delta)
  }

  function ApplyTradeEvent(b: Book, e: Event): (Book, bool) {
    if !e.data.TradePayload? || b.desynced then (Rejected(b), false)
    else
      var (b1, newer) := AdvanceSeq(b, e.Seq());
      if !newer then (Rejected(b1), false)
      else (b1.(lastTrade := Some(e.data.trade), counts := b1.counts.(trades := b1.counts.trades + 1)), true)
  }

  function Step(b: Book, e: Event): (Book, bool) {
    match e.eventType
    case SnapshotType => ApplySnapshotEvent(b, e)
    case DeltaType => ApplyDeltaEvent(b, e)
    case TradeType => ApplyTradeEvent(b, e)
    case HeartbeatType => (Rejected(b), false)
    case StatusType => (Rejected(b), false)
    case UnknownType => (Rejected(b), false)
  }

  function Run(b: Book, es: seq<Event>): Book
    decreases |es|
  {
    if es == [] then b else Run(Step(b, es[0]).0, es[1..])
  }

  /** The whole store: events without a market or a type are refused before any book is touched. */
  type Store = map<string, Book>

  predicate Addressed(e: Event) {
    e.market != "" && e.eventType != UnknownType
  }

  function BookOf(st: Store, market: string): Book {
    if market in st then st[market] else FRESH
  }

  function StoreStep(st: Store, e: Event): (Store, bool) {
    if !Addressed(e) then (st, false)
    else
      var (b, ok) := Step(BookOf(st, e.market), e);
      (st[e.market := b], ok)
  }

  function StoreRun(st: Store, es: seq<Event>): Store
    decreases |es|
  {
    if es == [] then st else StoreRun(StoreStep(st, es[0]).0, es[1..])
  }
}
