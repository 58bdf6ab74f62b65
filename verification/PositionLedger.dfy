/** The mutable position ledger, and the proof that it computes `LedgerModel`. */
module PositionLedger {
  import opened MarketTypes
  import opened OmsTypes
  import opened MapTotals
  import opened LedgerModel

  class PositionLedgerCore {
    var positions: map<Key, Position>
    var processedFills: nat
    var ignoredUpdates: nat
    var rejectedFills: nat
    var closedPositions: nat
    var realizedPnlTotal: int

    function View(): Ledger
      reads this
    {
      Ledger(positions, processedFills, ignoredUpdates, rejectedFills, closedPositions, realizedPnlTotal)
    }

    constructor ()
      ensures View() == EMPTY_LEDGER
    {
      positions := map[];
      processedFills, ignoredUpdates, rejectedFills, closedPositions, realizedPnlTotal := 0, 0, 0, 0, 0;
    }

    method OnOrderUpdate(update: Update) returns (ok: bool)
      modifies this
      ensures (View(), ok) == OnUpdate(old(View()), update)
    {
      if update.status != Filled && update.status != PartiallyFilled {
        ignoredUpdates := ignoredUpdates + 1;
        return true;
      }
      if !update.data.FillData? {
        rejectedFills := rejectedFills + 1;
        return false;
      }
      ok := ApplyFill(update);
    }

    method ApplyFill(update: Update) returns (ok: bool)
      requires IsFillStatus(update) && update.data.FillData?
      modifies this
      ensures (View(), ok) == OnUpdate(old(View()), update)
    {
      var fill := update.data.fill;
      var market := if fill.market == "" then update.market else fill.market;
      if market == "" || fill.qty <= 0 {
        rejectedFills := rejectedFills + 1;
        return false;
      }
      var signedQty := SignedQty(fill.side, fill.qty);
      if signedQty == 0 {
        rejectedFills := rejectedFills + 1;
        return false;
      }
      var key := Key(update.exchange, market);
      var before := if key in positions then positions[key] else FLAT;
      var after := Booked(before, signedQty, fill.price);
      positions := positions[key := after];
      realizedPnlTotal := realizedPnlTotal + (after.pnl - before.pnl);
      if after.net == 0 {
        closedPositions := closedPositions + 1;
      }
      processedFills := processedFills + 1;
      return true;
    }

    /** The body of `apply_fill` for one market: open, add with a truncated average, or close and maybe flip. */
    static method Booked(position: Position, signedQty: int, price: int) returns (p: Position)
      requires signedQty != 0
      ensures p == FillPosition(position, signedQty, price)
    {
      p := position;
      p := p.(fillCount := p.fillCount + 1);
      if signedQty > 0 {
        p := p.(bought := p.bought + signedQty);
      } else {
        p := p.(sold := p.sold + -signedQty);
      }
      var oldNet := p.net;
      if oldNet == 0 {
        p := p.(net := signedQty, avgPrice := price, hasOpenPrice := true);
        return;
      }
      var oldAbs: int := if oldNet >= 0 then oldNet else -oldNet;
      var fillAbs: int := if signedQty >= 0 then signedQty else -signedQty;
      if (oldNet > 0 && signedQty > 0) || (oldNet < 0 && signedQty < 0) {
        var newAbs := oldAbs + fillAbs;
        var weighted := p.avgPrice * oldAbs + price * fillAbs;
        var average := if weighted >= 0 then weighted / newAbs else -((-weighted) / newAbs);
        TruncDivIsDivision(weighted, newAbs);
        p := p.(avgPrice := average, net := oldNet + signedQty, hasOpenPrice := true);
        return;
      }
      var closedQty := if oldAbs < fillAbs then oldAbs else fillAbs;
      var profit: int;
      if oldNet > 0 {
        profit := (price - p.avgPrice) * closedQty;
      } else {
        profit := (p.avgPrice - price) * closedQty;
      }
      p := p.(pnl := p.pnl + profit, closed := p.closed + closedQty, net := oldNet + signedQty);
      if p.net == 0 {
        p := p.(hasOpenPrice := false);
      } else if (oldNet > 0 && p.net < 0) || (oldNet < 0 && p.net > 0) {
        p := p.(avgPrice := price, hasOpenPrice := true);
      }
    }

    /** One pass over all positions, in whatever order the map yields them. */
    method PortfolioSnapshot(exchange: ExchangeId, market: string) returns (s: PortfolioRiskSnapshot)
      ensures s == SnapshotFor(View(), exchange, market)
    {
      var key := Key(exchange, market);
      var net := if key in positions then positions[key].net else 0;
      var gross, pnl := 0, 0;
      var todo := positions.Keys;
      WholeAndEmpty(positions, exchange);
      while todo != {}
        invariant todo <= positions.Keys
        invariant gross + Total(Sizes(Only(positions, todo), exchange)) == Total(Sizes(positions, exchange))
        invariant pnl + Total(ProfitsOn(Only(positions, todo), exchange)) == Total(ProfitsOn(positions, exchange))
        decreases |todo|
      {
        var k :| k in todo;
        SplitTotals(positions, todo, k, exchange);
        if k.exchange == exchange {
          gross := gross + (if positions[k].net >= 0 then positions[k].net else -positions[k].net);
          pnl := pnl + positions[k].pnl;
        }
        todo := todo - {k};
      }
      s := PortfolioRiskSnapshot(net, gross, pnl);
    }

    static lemma SplitTotals(m: map<Key, Position>, todo: set<Key>, k: Key, exchange: ExchangeId)
      requires k in todo && todo <= m.Keys
      ensures Total(Sizes(Only(m, todo), exchange))
              == Total(Sizes(Only(m, todo - {k}), exchange)) + if k.exchange == exchange then Abs(m[k].net) else 0
      ensures Total(ProfitsOn(Only(m, todo), exchange))
              == Total(ProfitsOn(Only(m, todo - {k}), exchange)) + if k.exchange == exchange then m[k].pnl else 0
    {
      var here, rest := Only(m, todo), Only(m, todo - {k});
      if k.exchange == exchange {
        TotalRemove(Sizes(here, exchange), k);
        TotalRemove(ProfitsOn(here, exchange), k);
        assert Sizes(here, exchange) - {k} == Sizes(rest, exchange);
        assert ProfitsOn(here, exchange) - {k} == ProfitsOn(rest, exchange);
      } else {
        assert Sizes(here, exchange) == Sizes(rest, exchange);
        assert ProfitsOn(here, exchange) == ProfitsOn(rest, exchange);
      }
    }

    static lemma WholeAndEmpty(m: map<Key, Position>, exchange: ExchangeId)
      ensures Only(m, m.Keys) == m
      ensures Total(Sizes(Only(m, {}), exchange)) == 0 && Total(ProfitsOn(Only(m, {}), exchange)) == 0
    {
    }

    static ghost function Only(m: map<Key, Position>, keys: set<Key>): map<Key, Position> {
      map k | k in m && k in keys :: m[k]
    }
  }
}
