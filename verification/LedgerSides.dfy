/**
 What the ledger books, by side and by market. These statements name the sides, the fields and the numbers of the
 updates themselves, and none of the functions the ledger is made of.
 */
module LedgerSides {
  import opened MarketTypes
  import opened OmsTypes
  import opened MapTotals
  import opened RiskGates
  import opened LedgerModel
  import LedgerProperties

  // ---------------------------------------------------------------- what counts as a fill

  predicate Buys(side: Side) {
    side == Buy || side == Bid
  }

  predicate Sells(side: Side) {
    side == Sell || side == Ask
  }

  predicate ReportsFill(u: Update) {
    u.status == Filled || u.status == PartiallyFilled
  }

  /** The market a fill is for: its own, or else the update's. */
  function MarketOf(u: Update): string
    requires u.data.FillData?
  {
    if u.data.fill.market != "" then u.data.fill.market else u.market
  }

  /** A fill with a market, a positive quantity and a side. */
  predicate Bookable(u: Update) {
    && ReportsFill(u) && u.data.FillData? && MarketOf(u) != ""
    && 0 < u.data.fill.qty && (Buys(u.data.fill.side) || Sells(u.data.fill.side))
  }

  predicate BooksIn(u: Update, k: Key) {
    Bookable(u) && k == Key(u.exchange, MarketOf(u))
  }

  lemma BookableFills(u: Update)
    ensures Bookable(u) <==> Fills(u)
    ensures Bookable(u) ==> FillKey(u) == Key(u.exchange, MarketOf(u)) && FillPrice(u) == u.data.fill.price
    ensures Bookable(u) ==> FillQty(u) == if Buys(u.data.fill.side) then u.data.fill.qty else -u.data.fill.qty
  {
  }

  // ---------------------------------------------------------------- one update

  /** A fill grows `bought` on a buying side and `sold` on a selling side, by its quantity, and not the other. */
  predicate MovesBySide(p: Position, p': Position, side: Side, qty: int) {
    if Buys(side) then p'.bought == p.bought + qty && p'.sold == p.sold && p'.net == p.net + qty
    else p'.sold == p.sold + qty && p'.bought == p.bought && p'.net == p.net - qty
  }

  lemma PositionMovesBySide(p: Position, side: Side, qty: int, q: int, price: int)
    requires 0 < qty && (Buys(side) || Sells(side)) && q == if Buys(side) then qty else -qty
    ensures MovesBySide(p, FillPosition(p, q, price), side, qty)
  {
  }

  /** The ledger takes an update unless it reports a fill it cannot book; only a bookable fill moves a position. */
  lemma UpdateBooksOnItsSide(l: Ledger, u: Update, k: Key)
    ensures OnUpdate(l, u).1 <==> (ReportsFill(u) ==> Bookable(u))
    ensures BooksIn(u, k) ==>
              MovesBySide(PositionAt(l, k), PositionAt(OnUpdate(l, u).0, k), u.data.fill.side, u.data.fill.qty)
    ensures !BooksIn(u, k) ==> PositionAt(OnUpdate(l, u).0, k) == PositionAt(l, k)
  {
    BookableFills(u);
    if Bookable(u) {
      PositionMovesBySide(PositionAt(l, FillKey(u)), u.data.fill.side, u.data.fill.qty, FillQty(u), FillPrice(u));
    }
  }

  // ---------------------------------------------------------------- every sequence of updates

  function BoughtIn(us: seq<Update>, k: Key): int {
    if us == [] then 0
    else
      var u := us[|us| - 1];
      BoughtIn(us[..|us| - 1], k) + if BooksIn(u, k) && Buys(u.data.fill.side) then u.data.fill.qty else 0
  }

  function SoldIn(us: seq<Update>, k: Key): int {
    if us == [] then 0
    else
      var u := us[|us| - 1];
      SoldIn(us[..|us| - 1], k) + if BooksIn(u, k) && Sells(u.data.fill.side) then u.data.fill.qty else 0
  }

  lemma LedgerSnoc(us: seq<Update>)
    requires us != []
    ensures OnUpdates(EMPTY_LEDGER, us) == OnUpdate(OnUpdates(EMPTY_LEDGER, us[..|us| - 1]), us[|us| - 1]).0
  {
    assert us == us[..|us| - 1] + [us[|us| - 1]];
    LedgerProperties.OnUpdatesSnoc(EMPTY_LEDGER, us[..|us| - 1], us[|us| - 1]);
  }

  /** After any updates: bought is what the buying sides filled, sold what the selling sides did, net the difference. */
  lemma {:induction false} LedgerFollowsSides(us: seq<Update>, k: Key)
    ensures var p := PositionAt(OnUpdates(EMPTY_LEDGER, us), k);
            p.bought == BoughtIn(us, k) && p.sold == SoldIn(us, k) && p.net == BoughtIn(us, k) - SoldIn(us, k)
  {
    if us != [] {
      var front, u := us[..|us| - 1], us[|us| - 1];
      LedgerFollowsSides(front, k);
      LedgerSnoc(us);
      UpdateBooksOnItsSide(OnUpdates(EMPTY_LEDGER, front), u, k);
    }
  }

  // ---------------------------------------------------------------- the ledger's counters

  function BookableCount(us: seq<Update>): nat {
    if us == [] then 0 else BookableCount(us[..|us| - 1]) + if Bookable(us[|us| - 1]) then 1 else 0
  }

  function OtherCount(us: seq<Update>): nat {
    if us == [] then 0 else OtherCount(us[..|us| - 1]) + if ReportsFill(us[|us| - 1]) then 0 else 1
  }

  /** How often a fill left its market without a position. */
  function FlatCount(us: seq<Update>): nat {
    if us == [] then 0
    else
      var u := us[|us| - 1];
      var flat := Bookable(u) && (var k := Key(u.exchange, MarketOf(u)); BoughtIn(us, k) == SoldIn(us, k));
      FlatCount(us[..|us| - 1]) + if flat then 1 else 0
  }

  /** Every update is processed, ignored or rejected, and closings are counted as they happen. */
  lemma {:induction false} LedgerCounts(us: seq<Update>)
    ensures var l := OnUpdates(EMPTY_LEDGER, us);
            && l.processed == BookableCount(us) && l.ignored == OtherCount(us)
            && l.rejected == |us| - BookableCount(us) - OtherCount(us) && l.closedPositions == FlatCount(us)
  {
    if us != [] {
      var front, u := us[..|us| - 1], us[|us| - 1];
      LedgerCounts(front);
      LedgerSnoc(us);
      BookableFills(u);
      if Bookable(u) {
        var k := Key(u.exchange, MarketOf(u));
        LedgerFollowsSides(us, k);
        CountsOfBooking(OnUpdates(EMPTY_LEDGER, front), u, k);
      }
    }
  }

  lemma CountsOfBooking(l: Ledger, u: Update, k: Key)
    requires Bookable(u) && k == Key(u.exchange, MarketOf(u))
    ensures var l' := OnUpdate(l, u).0;
            && l'.processed == l.processed + 1 && l'.ignored == l.ignored && l'.rejected == l.rejected
            && l'.closedPositions == l.closedPositions + if PositionAt(l', k).net == 0 then 1 else 0
  {
    BookableFills(u);
  }

  // ---------------------------------------------------------------- realised profit, and the floor

  /** What a fill realises: the part that closes the position, against its average price. */
  function Realised(p: Position, side: Side, qty: int, price: int): int {
    if Buys(side) && p.net < 0 then (p.avgPrice - price) * Min(-p.net, qty)
    else if Sells(side) && 0 < p.net then (price - p.avgPrice) * Min(p.net, qty)
    else 0
  }

  lemma FillRealises(p: Position, side: Side, qty: int, q: int, price: int)
    requires 0 < qty && (Buys(side) || Sells(side)) && q == if Buys(side) then qty else -qty
    ensures FillPosition(p, q, price).pnl == p.pnl + Realised(p, side, qty, price)
  {
  }

  lemma ProfitsAfter(m: map<Key, Position>, k: Key, after: Position, exchange: ExchangeId)
    ensures var before := if k in m then m[k].pnl else 0;
            Total(ProfitsOn(m[k := after], exchange))
            == Total(ProfitsOn(m, exchange)) + if k.exchange == exchange then after.pnl - before else 0
  {
    if k.exchange == exchange {
      TotalUpdate(ProfitsOn(m, exchange), k, after.pnl);
      assert ProfitsOn(m[k := after], exchange) == ProfitsOn(m, exchange)[k := after.pnl];
    } else {
      assert ProfitsOn(m[k := after], exchange) == ProfitsOn(m, exchange);
    }
  }

  /** What an update realises on an exchange. */
  function RealisedBy(l: Ledger, u: Update, exchange: ExchangeId): int {
    if Bookable(u) && u.exchange == exchange then
      Realised(PositionAt(l, Key(exchange, MarketOf(u))), u.data.fill.side, u.data.fill.qty, u.data.fill.price)
    else 0
  }

  /** A snapshot's realised PnL, whatever market it is for, moves by exactly what the update realises there. */
  lemma SnapshotMovesByRealised(l: Ledger, u: Update, exchange: ExchangeId, market: string)
    ensures SnapshotFor(OnUpdate(l, u).0, exchange, market).realizedPnl
            == SnapshotFor(l, exchange, market).realizedPnl + RealisedBy(l, u, exchange)
  {
    BookableFills(u);
    if Bookable(u) {
      var p := PositionAt(l, FillKey(u));
      FillRealises(p, u.data.fill.side, u.data.fill.qty, FillQty(u), FillPrice(u));
      ProfitsAfter(l.positions, FillKey(u), FillPosition(p, FillQty(u), FillPrice(u)), exchange);
    }
  }

  /** All that was realised on an exchange, in whatever market. */
  function RealisedOn(us: seq<Update>, exchange: ExchangeId): int {
    if us == [] then 0
    else
      var front, u := us[..|us| - 1], us[|us| - 1];
      RealisedOn(front, exchange) + RealisedBy(OnUpdates(EMPTY_LEDGER, front), u, exchange)
  }

  lemma {:induction false} SnapshotHoldsAllRealised(us: seq<Update>, exchange: ExchangeId, market: string)
    ensures SnapshotFor(OnUpdates(EMPTY_LEDGER, us), exchange, market).realizedPnl == RealisedOn(us, exchange)
  {
    if us == [] {
      assert ProfitsOn(map[], exchange) == map[];
    } else {
      SnapshotHoldsAllRealised(us[..|us| - 1], exchange, market);
      LedgerSnoc(us);
      SnapshotMovesByRealised(OnUpdates(EMPTY_LEDGER, us[..|us| - 1]), us[|us| - 1], exchange, market);
    }
  }

  /** Once the losses realised on an exchange pass an enforced floor, no order there passes, whatever its market. */
  lemma BreachedFloorBlocksTheExchange(cfg: PortfolioRiskConfig, us: seq<Update>, intent: Intent)
    requires cfg.enforcePnlFloor && RealisedOn(us, intent.exchange) < cfg.minRealizedPnl
    requires intent.action == Place || intent.action == Replace
    ensures EvaluatePortfolio(cfg, intent, SnapshotFor(OnUpdates(EMPTY_LEDGER, us), intent.exchange, intent.market))
            == Some(RealizedPnlFloor)
  {
    SnapshotHoldsAllRealised(us, intent.exchange, intent.market);
  }

  lemma {:induction false} ProfitsSplit(m: map<Key, Position>)
    ensures Total(ProfitsOn(m, UnknownExchange)) + Total(ProfitsOn(m, Kalshi)) + Total(ProfitsOn(m, Polymarket))
            == Total(Profits(m))
    decreases m.Keys
  {
    if m.Keys == {} {
      assert Profits(m).Keys == {} && forall e :: ProfitsOn(m, e).Keys == {};
    } else {
      var k :| k in m.Keys;
      ProfitsSplit(m - {k});
      TotalRemove(Profits(m), k);
      assert Profits(m) - {k} == Profits(m - {k});
      ProfitsWithout(m, k, UnknownExchange);
      ProfitsWithout(m, k, Kalshi);
      ProfitsWithout(m, k, Polymarket);
    }
  }

  lemma ProfitsWithout(m: map<Key, Position>, k: Key, exchange: ExchangeId)
    requires k in m
    ensures Total(ProfitsOn(m, exchange))
            == Total(ProfitsOn(m - {k}, exchange)) + if k.exchange == exchange then m[k].pnl else 0
  {
    if k.exchange == exchange {
      TotalRemove(ProfitsOn(m, exchange), k);
      assert ProfitsOn(m, exchange) - {k} == ProfitsOn(m - {k}, exchange);
    } else {
      assert ProfitsOn(m, exchange) == ProfitsOn(m - {k}, exchange);
    }
  }

  /** The snapshots' values over all exchanges add up to the ledger's own total. */
  lemma SnapshotsAddUp(us: seq<Update>, a: string, b: string, c: string)
    ensures var l := OnUpdates(EMPTY_LEDGER, us);
            SnapshotFor(l, UnknownExchange, a).realizedPnl + SnapshotFor(l, Kalshi, b).realizedPnl
            + SnapshotFor(l, Polymarket, c).realizedPnl == l.pnlTotal
  {
    LedgerProperties.AlgebraAlwaysHolds(us);
    ProfitsSplit(OnUpdates(EMPTY_LEDGER, us).positions);
  }

  // ---------------------------------------------------------------- net and gross, over all markets of an exchange

  /** The size of the position that was bought and sold in a market. */
  function SizeIn(us: seq<Update>, k: Key): int {
    Abs(BoughtIn(us, k) - SoldIn(us, k))
  }

  /** The sizes of all markets of an exchange together, update by update. */
  function SizesOn(us: seq<Update>, exchange: ExchangeId): int {
    if us == [] then 0
    else
      var front, u := us[..|us| - 1], us[|us| - 1];
      SizesOn(front, exchange)
      + if Bookable(u) && u.exchange == exchange
        then SizeIn(us, Key(exchange, MarketOf(u))) - SizeIn(front, Key(exchange, MarketOf(u))) else 0
  }

  lemma SizesAfter(m: map<Key, Position>, k: Key, after: Position, exchange: ExchangeId)
    ensures var before := if k in m then Abs(m[k].net) as int else 0;
            Total(Sizes(m[k := after], exchange))
            == Total(Sizes(m, exchange)) + if k.exchange == exchange then Abs(after.net) - before else 0
  {
    if k.exchange == exchange {
      TotalUpdate(Sizes(m, exchange), k, Abs(after.net));
      assert Sizes(m[k := after], exchange) == Sizes(m, exchange)[k := Abs(after.net) as int];
    } else {
      assert Sizes(m[k := after], exchange) == Sizes(m, exchange);
    }
  }

  /** A fill moves the gross by the change of its own market's size, whatever market the snapshot is for. */
  lemma SnapshotMovesGross(l: Ledger, u: Update, exchange: ExchangeId, market: string)
    ensures var l' := OnUpdate(l, u).0;
            SnapshotFor(l', exchange, market).grossGlobal == SnapshotFor(l, exchange, market).grossGlobal
            + if Bookable(u) && u.exchange == exchange
              then (var k := Key(exchange, MarketOf(u)); Abs(PositionAt(l', k).net) - Abs(PositionAt(l, k).net)) else 0
  {
    BookableFills(u);
    if Bookable(u) {
      SizesAfter(l.positions, FillKey(u), FillPosition(PositionAt(l, FillKey(u)), FillQty(u), FillPrice(u)), exchange);
    }
  }

  /** After any updates a snapshot holds its own market's net, and the gross over all markets of the exchange. */
  lemma {:induction false} SnapshotHoldsNetAndGross(us: seq<Update>, exchange: ExchangeId, market: string)
    ensures var s := SnapshotFor(OnUpdates(EMPTY_LEDGER, us), exchange, market);
            && s.netMarket == BoughtIn(us, Key(exchange, market)) - SoldIn(us, Key(exchange, market))
            && s.grossGlobal == SizesOn(us, exchange)
  {
    LedgerFollowsSides(us, Key(exchange, market));
    if us == [] {
      assert Sizes(map[], exchange) == map[];
    } else {
      SnapshotHoldsNetAndGross(us[..|us| - 1], exchange, market);
      GrossMovesBySizes(us, exchange, market);
    }
  }

  lemma GrossMovesBySizes(us: seq<Update>, exchange: ExchangeId, market: string)
    requires us != []
    ensures var before, after := OnUpdates(EMPTY_LEDGER, us[..|us| - 1]), OnUpdates(EMPTY_LEDGER, us);
            SnapshotFor(after, exchange, market).grossGlobal - SnapshotFor(before, exchange, market).grossGlobal
            == SizesOn(us, exchange) - SizesOn(us[..|us| - 1], exchange)
  {
    var front, u := us[..|us| - 1], us[|us| - 1];
    LedgerSnoc(us);
    SnapshotMovesGross(OnUpdates(EMPTY_LEDGER, front), u, exchange, market);
    if Bookable(u) {
      LedgerFollowsSides(front, Key(exchange, MarketOf(u)));
      LedgerFollowsSides(us, Key(exchange, MarketOf(u)));
    }
  }

  // ---------------------------------------------------------------- the gate's projection, by side

  /** The net the portfolio gate projects: up by a buy's quantity, down by a sell's. */
  lemma ProjectionBySide(intent: Intent, s: PortfolioRiskSnapshot)
    ensures ProjectedNet(intent, s)
            == s.netMarket + (if intent.qty <= 0 then 0
                              else if Buys(intent.side) then intent.qty
                              else if Sells(intent.side) then -intent.qty else 0)
  {
  }
}
