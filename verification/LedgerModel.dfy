/** What one fill does to one market's position, and what one update does to the ledger, on values. */
module LedgerModel {
  import opened MarketTypes
  import opened OmsTypes
  import opened MapTotals
  import opened Arithmetic

  datatype Key = Key(exchange: ExchangeId, market: string)

  datatype Position = Position(
    net: int,
    avgPrice: int,
    hasOpenPrice: bool,
    bought: int,
    sold: int,
    closed: int,
    pnl: int,
    fillCount: nat)

  const FLAT := Position(0, 0, false, 0, 0, 0, 0, 0)

  /** Division that drops the fraction, as the program's language divides; here by repeated subtraction. */
  function TruncDiv(a: int, b: int): int
    requires 0 < b
    decreases Abs(a)
  {
    if b <= a then TruncDiv(a - b, b) + 1
    else if a <= -b then TruncDiv(a + b, b) - 1
    else 0
  }

  lemma {:induction false} TruncDivIsDivision(a: int, b: int)
    requires 0 < b
    ensures TruncDiv(a, b) == if 0 <= a then a / b else -((-a) / b)
    decreases Abs(a)
  {
    if b <= a {
      TruncDivIsDivision(a - b, b);
      DivStep(a, b);
    } else if a <= -b {
      TruncDivIsDivision(a + b, b);
      DivStep(-a, b);
    } else if 0 <= a {
      SmallDiv(a, b);
    } else {
      SmallDiv(-a, b);
    }
  }

  lemma SmallDiv(a: int, b: int)
    requires 0 <= a < b
    ensures a / b == 0
  {
  }

  lemma DivStep(a: int, b: int)
    requires 0 < b <= a
    ensures a / b == (a - b) / b + 1
  {
    var d := a / b - (a - b) / b - 1;
    assert d * b == (a - b) % b - a % b;
    MultipleBounds(d, b);
  }

  /** The value of some lots at a price. */
  function LotsAt(price: int, lots: nat): int {
    price * lots
  }

  predicate SameDirection(net: int, q: int) {
    (0 < net && 0 < q) || (net < 0 && q < 0)
  }

  /** Price-weighted size of the old position and the fill together. */
  function Notional(p: Position, q: int, price: int): int {
    LotsAt(p.avgPrice, Abs(p.net)) + LotsAt(price, Abs(q))
  }

  /** The part of an opposite fill that closes the position. */
  function CloseQty(p: Position, q: int): nat {
    if Abs(p.net) < Abs(q) then Abs(p.net) else Abs(q)
  }

  function CloseProfit(p: Position, q: int, price: int): int {
    LotsAt(if 0 < p.net then price - p.avgPrice else p.avgPrice - price, CloseQty(p, q))
  }

  /** One fill of signed size `q` at `price`. */
  function FillPosition(p: Position, q: int, price: int): Position
    requires q != 0
  {
    var p1 := p.(fillCount := p.fillCount + 1,
                 bought := if 0 < q then p.bought + q else p.bought,
                 sold := if q < 0 then p.sold - q else p.sold);
    if p.net == 0 then
      p1.(net := q, avgPrice := price, hasOpenPrice := true)
    else if SameDirection(p.net, q) then
      p1.(net := p.net + q, avgPrice := TruncDiv(Notional(p, q, price), Abs(p.net) + Abs(q)), hasOpenPrice := true)
    else
      var p2 := p1.(net := p.net + q, closed := p.closed + CloseQty(p, q),
                    pnl := p.pnl + CloseProfit(p, q, price));
      if p2.net == 0 then p2.(hasOpenPrice := false)
      else if SameDirection(p.net, p2.net) then p2
      else p2.(avgPrice := price, hasOpenPrice := true)
  }

  datatype Ledger = Ledger(
    positions: map<Key, Position>,
    processed: nat,
    ignored: nat,
    rejected: nat,
    closedPositions: nat,
    pnlTotal: int)

  const EMPTY_LEDGER := Ledger(map[], 0, 0, 0, 0, 0)

  function PositionAt(l: Ledger, k: Key): Position {
    if k in l.positions then l.positions[k] else FLAT
  }

  predicate IsFillStatus(u: Update) {
    u.status == Filled || u.status == PartiallyFilled
  }

  function FillMarket(u: Update): string
    requires u.data.FillData?
  {
    if u.data.fill.market == "" then u.market else u.data.fill.market
  }

  /** The updates that reach a position. */
  predicate Fills(u: Update) {
    && IsFillStatus(u) && u.data.FillData?
    && FillMarket(u) != "" && 0 < u.data.fill.qty && u.data.fill.side != UnknownSide
  }

  function FillKey(u: Update): Key
    requires Fills(u)
  {
    Key(u.exchange, FillMarket(u))
  }

  function FillQty(u: Update): (q: int)
    requires Fills(u)
    ensures q != 0 && Abs(q) == u.data.fill.qty
  {
    SignedQty(u.data.fill.side, u.data.fill.qty)
  }

  function FillPrice(u: Update): int
    requires Fills(u)
  {
    u.data.fill.price
  }

  /** Books one fill of signed size `q` into the position of market `k`. */
  function BookFill(l: Ledger, k: Key, q: int, price: int): Ledger
    requires q != 0
  {
    var before := PositionAt(l, k);
    var after := FillPosition(before, q, price);
    l.(positions := l.positions[k := after],
       processed := l.processed + 1,
       closedPositions := if after.net == 0 then l.closedPositions + 1 else l.closedPositions,
       pnlTotal := l.pnlTotal + (after.pnl - before.pnl))
  }

  function OnUpdate(l: Ledger, u: Update): (Ledger, bool) {
    if !IsFillStatus(u) then (l.(ignored := l.ignored + 1), true)
    else if !Fills(u) then (l.(rejected := l.rejected + 1), false)
    else (BookFill(l, FillKey(u), FillQty(u), FillPrice(u)), true)
  }

  function OnUpdates(l: Ledger, us: seq<Update>): Ledger
    decreases |us|
  {
    if us == [] then l else OnUpdates(OnUpdate(l, us[0]).0, us[1..])
  }

  // ---------------------------------------------------------------- sums over positions

  ghost function Sizes(m: map<Key, Position>, exchange: ExchangeId): map<Key, int> {
    map k | k in m && k.exchange == exchange :: Abs(m[k].net) as int
  }

  ghost function Profits(m: map<Key, Position>): map<Key, int> {
    map k | k in m :: m[k].pnl
  }

  ghost function ProfitsOn(m: map<Key, Position>, exchange: ExchangeId): map<Key, int> {
    map k | k in m && k.exchange == exchange :: m[k].pnl
  }

  ghost function FillCounts(m: map<Key, Position>): map<Key, int> {
    map k | k in m :: m[k].fillCount as int
  }

  ghost function SnapshotFor(l: Ledger, exchange: ExchangeId, market: string): PortfolioRiskSnapshot {
    PortfolioRiskSnapshot(PositionAt(l, Key(exchange, market)).net,
                          Total(Sizes(l.positions, exchange)), Total(ProfitsOn(l.positions, exchange)))
  }
}
