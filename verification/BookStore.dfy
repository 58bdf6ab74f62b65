/** The mutable order books of one shard, and the proof that they compute `BookModel`. */
module BookStore {
  import opened MarketTypes
  import opened BookModel

  class BookState {
    var lastSeq: Option<nat>
    var hasSnapshot: bool
    var desynced: bool
    var bids: Levels
    var asks: Levels
    var pending: seq<Pending>
    var lastTrade: Option<TradeData>
    var counts: Counts

    function View(): Book
      reads this
    {
      Book(lastSeq, hasSnapshot, desynced, bids, asks, pending, lastTrade, counts)
    }

    constructor ()
      ensures View() == FRESH
    {
      lastSeq, hasSnapshot, desynced := None, false, false;
      bids, asks, pending, lastTrade := map[], map[], [], None;
      counts := Counts(0, 0, 0, 0, 0, 0, 0, 0, 0);
    }

    method MarkDesynced(dropped: nat)
      modifies this
      ensures View() == Desynced(old(View()), dropped)
    {
      if !desynced {
        counts := counts.(desyncs := counts.desyncs + 1);
      }
      desynced := true;
      hasSnapshot := false;
      lastSeq := None;
      bids := map[];
      asks := map[];
      pending := [];
      counts := counts.(droppedPending := counts.droppedPending + dropped);
    }

    method AdvanceSequenceIfPresent(seqId: Option<nat>) returns (ok: bool)
      modifies this`lastSeq, this`counts
      ensures (View(), ok) == AdvanceSeq(old(View()), seqId)
    {
      if seqId.None? {
        return true;
      }
      if lastSeq.Some? && seqId.value <= lastSeq.value {
        counts := counts.(stale := counts.stale + 1);
        return false;
      }
      lastSeq := seqId;
      return true;
    }

    method ApplySnapshotData(snapshot: SnapshotData) returns (ok: bool)
      modifies this`bids, this`asks
      ensures (View(), ok) == LoadSnapshot(old(View()), snapshot)
    {
      bids := map[];
      asks := map[];
      for i := 0 to |snapshot.bids|
        invariant asks == map[]
        invariant LoadLevels(map[], snapshot.bids) == LoadLevels(bids, snapshot.bids[i..])
      {
        var level := snapshot.bids[i];
        assert snapshot.bids[i..][1..] == snapshot.bids[i + 1..];
        if level.price < 0 || level.qty <= 0 {
          return false;
        }
        bids := bids[level.price := level.qty];
      }
      for i := 0 to |snapshot.asks|
        invariant LoadLevels(map[], snapshot.bids) == (bids, true)
        invariant LoadLevels(map[], snapshot.asks) == LoadLevels(asks, snapshot.asks[i..])
      {
        var level := snapshot.asks[i];
        assert snapshot.asks[i..][1..] == snapshot.asks[i + 1..];
        if level.price < 0 || level.qty <= 0 {
          return false;
        }
        asks := asks[level.price := level.qty];
      }
      return true;
    }

    method ApplyDeltaData(delta: DeltaData) returns (ok: bool)
      modifies this`bids, this`asks
      ensures (View(), ok) == ApplyDelta(old(View()), delta)
    {
      if delta.price < 0 {
        return false;
      }
      match delta.side {
        case Bid | Buy =>
          var existing := if delta.price in bids then bids[delta.price] else 0;
          var updated := existing + delta.qty;
          if updated <= 0 {
            bids := bids - {delta.price};
          } else {
            bids := bids[delta.price := updated];
          }
          return true;
        case Ask | Sell =>
          var existing := if delta.price in asks then asks[delta.price] else 0;
          var updated := existing + delta.qty;
          if updated <= 0 {
            asks := asks - {delta.price};
          } else {
            asks := asks[delta.price := updated];
          }
          return true;
        case UnknownSide =>
          return false;
      }
    }

    /** One turn of the replay loop. */
    method ReplayNext() returns (ok: bool)
      requires pending != []
      modifies this
      ensures (View(), ok) == ReplayHead(old(View()))
    {
      var next := pending[0];
      pending := pending[1..];
      var newer := AdvanceSequenceIfPresent(next.seqId);
      if !newer {
        counts := counts.(droppedPending := counts.droppedPending + 1);
        return true;
      }
      var applied := ApplyDeltaData(next.delta);
      if !applied {
        MarkDesynced(|pending| + 1);
        return false;
      }
      counts := counts.(deltas := counts.deltas + 1);
      counts := counts.(replayed := counts.replayed + 1);
      return true;
    }

    method ReplayPendingDeltas() returns (ok: bool)
      modifies this
      ensures (View(), ok) == Replay(old(View()))
    {
      while pending != []
        invariant Replay(View()) == Replay(old(View()))
        decreases |View().pending|
      {
        ok := ReplayNext();
        if !ok {
          return;
        }
      }
      return true;
    }

    method CountReject()
      modifies this`counts
      ensures View() == Rejected(old(View()))
    {
      counts := counts.(rejects := counts.rejects + 1);
    }

    method ApplySnapshot(e: Event) returns (ok: bool)
      requires e.eventType == SnapshotType
      modifies this
      ensures (View(), ok) == Step(old(View()), e)
    {
      if !e.data.SnapshotPayload? {
        CountReject();
        return false;
      }
      var loaded := ApplySnapshotData(e.data.snapshot);
      if !loaded {
        CountReject();
        return false;
      }
      hasSnapshot := true;
      desynced := false;
      lastSeq := e.Seq();
      counts := counts.(snapshots := counts.snapshots + 1);
      var replayed := ReplayPendingDeltas();
      if !replayed {
        CountReject();
        return false;
      }
      return true;
    }

    method ApplyDeltaOrBuffer(e: Event) returns (ok: bool)
      requires e.eventType == DeltaType
      modifies this
      ensures (View(), ok) == Step(old(View()), e)
    {
      if !e.data.DeltaPayload? {
        CountReject();
        return false;
      }
      if desynced {
        CountReject();
        return false;
      }
      if !hasSnapshot {
        if |pending| >= MAX_PENDING {
          MarkDesynced(|pending| + 1);
          CountReject();
          return false;
        }
        pending := pending + [Pending(e.Seq(), e.data.delta)];
        counts := counts.(buffered := counts.buffered + 1);
        return true;
      }
      var newer := AdvanceSequenceIfPresent(e.Seq());
      if !newer {
        CountReject();
        return false;
      }
      var applied := ApplyDeltaData(e.data.delta);
      if !applied {
        CountReject();
        return false;
      }
      counts := counts.(deltas := counts.deltas + 1);
      return true;
    }

    method ApplyTrade(e: Event) returns (ok: bool)
      requires e.eventType == TradeType
      modifies this
      ensures (View(), ok) == Step(old(View()), e)
    {
      if !e.data.TradePayload? || desynced {
        CountReject();
        return false;
      }
      var newer := AdvanceSequenceIfPresent(e.Seq());
      if !newer {
        CountReject();
        return false;
      }
      lastTrade := Some(e.data.trade);
      counts := counts.(trades := counts.trades + 1);
      return true;
    }

    method ApplyEvent(e: Event) returns (ok: bool)
      modifies this
      ensures (View(), ok) == Step(old(View()), e)
    {
      match e.eventType {
        case SnapshotType => ok := ApplySnapshot(e);
        case DeltaType => ok := ApplyDeltaOrBuffer(e);
        case TradeType => ok := ApplyTrade(e);
        case HeartbeatType | StatusType | UnknownType =>
          CountReject();
          ok := false;
      }
    }
  }

  class BookStore {
    var books: map<string, BookState>

    /** No two markets share a book object. */
    ghost predicate Valid()
      reads this
    {
      forall m, n :: m in books && n in books && m != n ==> books[m] != books[n]
    }

    ghost function View(): Store
      reads this, books.Values
    {
      map m | m in books :: books[m].View()
    }

    constructor ()
      ensures Valid() && View() == map[]
    {
      books := map[];
    }

    method Apply(e: Event) returns (ok: bool)
      requires Valid()
      modifies this, if e.market in books then {books[e.market]} else {}
      ensures Valid()
      ensures (View(), ok) == StoreStep(old(View()), e)
    {
      if e.market == "" || e.eventType == UnknownType {
        return false;
      }
      ghost var start := View();
      var book := BookFor(e.market);
      ok := ApplyTo(book, e, start);
    }

    static lemma StoreStepIs(st: Store, e: Event, b: Book, ok: bool)
      requires Addressed(e) && (b, ok) == Step(BookOf(st, e.market), e)
      ensures StoreStep(st, e) == (st[e.market := b], ok)
    {
    }

    /** Changes one market's book and no other; `start` is the store before that book was looked up. */
    method ApplyTo(book: BookState, e: Event, ghost start: Store) returns (ok: bool)
      requires Valid() && Addressed(e) && e.market in books && books[e.market] == book
      requires book.View() == BookOf(start, e.market) && View() == start[e.market := book.View()]
      modifies book
      ensures Valid() && (View(), ok) == StoreStep(start, e)
    {
      ok := ApplyAlone(book, e, book.View());
      StoreStepIs(start, e, book.View(), ok);
      assert View() == start[e.market := book.View()];
    }

    method ApplyAlone(book: BookState, e: Event, ghost was: Book) returns (ok: bool)
      requires Valid() && e.market in books && books[e.market] == book && was == book.View()
      modifies book
      ensures Valid() && (book.View(), ok) == Step(was, e)
      ensures View() == old(View())[e.market := book.View()]
    {
      ok := book.ApplyEvent(e);
    }

    /** The market's book, created empty on first use. */
    method BookFor(market: string) returns (book: BookState)
      requires Valid()
      modifies this
      ensures Valid() && market in books && books[market] == book
      ensures if market in old(books) then books == old(books) else fresh(book) && books == old(books)[market := book]
      ensures book.View() == BookOf(old(View()), market)
      ensures View() == old(View())[market := book.View()]
    {
      if market !in books {
        var created := new BookState();
        books := books[market := created];
      }
      book := books[market];
    }
  }
}
