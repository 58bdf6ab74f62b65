/** What the position ledger promises over every sequence of fills. */
module LedgerProperties {
  import opened MarketTypes
  import opened OmsTypes
  import opened MapTotals
  import opened LedgerModel

  // ---------------------------------------------------------------- one market at a time

  /** A fill of one market: signed size and price. */
  datatype Trade = Trade(q: int, price: int)

  predicate Tradable(ts: seq<Trade>) {
    forall i :: 0 <= i < |ts| ==> ts[i].q != 0
  }

  function Book(ts: seq<Trade>): Position
    requires Tradable(ts)
  {
    if ts == [] then FLAT
    else FillPosition(Book(ts[..|ts| - 1]), ts[|ts| - 1].q, ts[|ts| - 1].price)
  }

  /** The fills of one market among a sequence of updates. */
  function TradesOf(us: seq<Update>, k: Key): (ts: seq<Trade>)
    ensures Tradable(ts)
  {
    if us == [] then []
    else
      var u := us[|us| - 1];
      var before := TradesOf(us[..|us| - 1], k);
      if Fills(u) && FillKey(u) == k then before + [Trade(FillQty(u), FillPrice(u))] else before
  }

  lemma {:induction false} OnUpdatesSnoc(l: Ledger, us: seq<Update>, u: Update)
    ensures OnUpdates(l, us + [u]) == OnUpdate(OnUpdates(l, us), u).0
    decreases |us|
  {
    if us == [] {
      assert us + [u] == [u];
      assert OnUpdates(l, [u]) == OnUpdates(OnUpdate(l, u).0, [u][1..]);
    } else {
      assert (us + [u])[1..] == us[1..] + [u];
      OnUpdatesSnoc(OnUpdate(l, us[0]).0, us[1..], u);
    }
  }

  /** A market's position depends only on that market's own fills. */
  lemma {:induction false} PositionFollowsOwnFills(us: seq<Update>, k: Key)
    ensures PositionAt(OnUpdates(EMPTY_LEDGER, us), k) == Book(TradesOf(us, k))
  {
    if us != [] {
      var front, u := us[..|us| - 1], us[|us| - 1];
      PositionFollowsOwnFills(front, k);
      OnUpdatesSnoc(EMPTY_LEDGER, front, u);
      assert us == front + [u];
      if Fills(u) && FillKey(u) == k {
        assert TradesOf(us, k)[..|TradesOf(front, k)|] == TradesOf(front, k);
      }
    }
  }

  // ---------------------------------------------------------------- ledger algebra

  predicate PositionAlgebra(p: Position) {
    && p.net == p.bought - p.sold
    && p.closed == Min(p.bought, p.sold)
    && 0 <= p.bought && 0 <= p.sold
    && (p.hasOpenPrice <==> p.net != 0)
  }

  lemma FillKeepsAlgebra(p: Position, q: int, price: int)
    requires q != 0 && PositionAlgebra(p)
    ensures PositionAlgebra(FillPosition(p, q, price))
    ensures FillPosition(p, q, price).fillCount == p.fillCount + 1
  {
  }

  ghost predicate PositionsAlgebra(l: Ledger) {
    forall k :: k in l.positions ==> PositionAlgebra(l.positions[k])
  }

  ghost predicate TotalsAgree(l: Ledger) {
    l.pnlTotal == Total(Profits(l.positions)) && l.processed == Total(FillCounts(l.positions))
  }

  lemma TotalsAfterChange(m: map<Key, Position>, k: Key, after: Position)
    ensures var before := if k in m then m[k] else FLAT;
            && Total(Profits(m[k := after])) == Total(Profits(m)) - before.pnl + after.pnl
            && Total(FillCounts(m[k := after])) == Total(FillCounts(m)) - before.fillCount + after.fillCount
  {
    TotalUpdate(Profits(m), k, after.pnl);
    TotalUpdate(FillCounts(m), k, after.fillCount);
    assert Profits(m[k := after]) == Profits(m)[k := after.pnl];
    assert FillCounts(m[k := after]) == FillCounts(m)[k := after.fillCount];
  }

  lemma BookingKeepsTotals(l: Ledger, k: Key, q: int, price: int)
    requires TotalsAgree(l) && q != 0
    ensures TotalsAgree(BookFill(l, k, q, price))
  {
    TotalsAfterChange(l.positions, k, FillPosition(PositionAt(l, k), q, price));
  }

  lemma PositionAtAlgebra(l: Ledger, k: Key)
    requires PositionsAlgebra(l)
    ensures PositionAlgebra(PositionAt(l, k))
  {
  }

  lemma BookingKeepsAlgebra(l: Ledger, k: Key, q: int, price: int)
    requires PositionsAlgebra(l) && q != 0
    ensures PositionsAlgebra(BookFill(l, k, q, price))
  {
    PositionAtAlgebra(l, k);
    FillKeepsAlgebra(PositionAt(l, k), q, price);
    ReplacedKeepsAlgebra(l, k, q, price);
  }

  lemma ReplacedKeepsAlgebra(l: Ledger, k: Key, q: int, price: int)
    requires PositionsAlgebra(l) && q != 0 && PositionAlgebra(FillPosition(PositionAt(l, k), q, price))
    ensures PositionsAlgebra(BookFill(l, k, q, price))
  {
  }

  lemma UpdateKeepsAlgebra(l: Ledger, u: Update)
    requires PositionsAlgebra(l) && TotalsAgree(l)
    ensures PositionsAlgebra(OnUpdate(l, u).0) && TotalsAgree(OnUpdate(l, u).0)
  {
    if Fills(u) {
      BookingKeepsTotals(l, FillKey(u), FillQty(u), FillPrice(u));
      BookingKeepsAlgebra(l, FillKey(u), FillQty(u), FillPrice(u));
    }
  }

  lemma {:induction false} AlgebraFrom(l: Ledger, us: seq<Update>)
    requires PositionsAlgebra(l) && TotalsAgree(l)
    ensures PositionsAlgebra(OnUpdates(l, us)) && TotalsAgree(OnUpdates(l, us))
    decreases |us|
  {
    if us != [] {
      UpdateKeepsAlgebra(l, us[0]);
      AlgebraFrom(OnUpdate(l, us[0]).0, us[1..]);
    }
  }

  /**
   After any updates: net is bought minus sold, closed is the smaller of the two, an open price exists exactly
   when net is not zero, and the two ledger totals are the sums over the markets.
   */
  lemma AlgebraAlwaysHolds(us: seq<Update>)
    ensures PositionsAlgebra(OnUpdates(EMPTY_LEDGER, us)) && TotalsAgree(OnUpdates(EMPTY_LEDGER, us))
  {
    AlgebraFrom(EMPTY_LEDGER, us);
  }

  // ---------------------------------------------------------------- the PnL identity

  function SellCash(ts: seq<Trade>): int {
    if ts == [] then 0
    else SellCash(ts[..|ts| - 1]) + (var t := ts[|ts| - 1]; if t.q < 0 then -t.q * t.price else 0)
  }

  function BuyCash(ts: seq<Trade>): int {
    if ts == [] then 0
    else BuyCash(ts[..|ts| - 1]) + (var t := ts[|ts| - 1]; if 0 < t.q then t.q * t.price else 0)
  }

  /** What the truncated average loses when a fill adds to the position. */
  function Remainder(p: Position, t: Trade): int {
    if t.q == 0 || !SameDirection(p.net, t.q) then 0
    else
      var n := Abs(p.net) + Abs(t.q);
      Notional(p, t.q, t.price) - TruncDiv(Notional(p, t.q, t.price), n) * n
  }

  /** Remainders of longs count positive, of shorts negative. */
  function RemainderSum(ts: seq<Trade>): int
    requires Tradable(ts)
  {
    if ts == [] then 0
    else
      var p, t := Book(ts[..|ts| - 1]), ts[|ts| - 1];
      RemainderSum(ts[..|ts| - 1]) + (if 0 < p.net then Remainder(p, t) else -Remainder(p, t))
  }

  lemma {:induction false} TruncDivBounds(a: int, b: int)
    requires 0 < b
    ensures Abs(a - TruncDiv(a, b) * b) < b
    decreases Abs(a)
  {
    if b <= a {
      TruncDivBounds(a - b, b);
      MulDistributes(TruncDiv(a - b, b), 1, b);
    } else if a <= -b {
      TruncDivBounds(a + b, b);
      MulDistributes(TruncDiv(a + b, b), 1, b);
    }
  }

  lemma MulDistributes(a: int, b: int, c: int)
    ensures (a + b) * c == a * c + b * c
    ensures (a - b) * c == a * c - b * c
  {
  }

  /** Net times average grows by the fill's cash, up to the remainder. */
  lemma AddingFill(p: Position, q: int, price: int)
    requires SameDirection(p.net, q)
    ensures var p' := FillPosition(p, q, price);
            var r := Remainder(p, Trade(q, price));
            p'.net * p'.avgPrice == p.net * p.avgPrice + q * price - (if 0 < p.net then r else -r)
  {
    var n, w := Abs(p.net) + Abs(q), Notional(p, q, price);
    var avg := TruncDiv(w, n);
    if 0 < p.net {
      assert n == p.net + q && w == p.net * p.avgPrice + q * price;
      assert (p.net + q) * avg == avg * n;
    } else {
      assert n == -(p.net + q);
      assert w == -(p.net * p.avgPrice + q * price) by {
        assert p.avgPrice * -p.net == -(p.net * p.avgPrice);
        assert price * -q == -(q * price);
      }
      assert (p.net + q) * avg == -(avg * n);
    }
  }

  /** Closing, and flipping, move exactly the booked profit. */
  lemma ClosingFill(p: Position, q: int, price: int)
    requires q != 0 && p.net != 0 && !SameDirection(p.net, q)
    ensures var p' := FillPosition(p, q, price);
            p'.net * p'.avgPrice == p.net * p.avgPrice + q * price + (p'.pnl - p.pnl)
  {
    var c := CloseQty(p, q);
    MulDistributes(price, p.avgPrice, c);
    MulDistributes(p.avgPrice, price, c);
    MulDistributes(p.net, q, p.avgPrice);
    MulDistributes(p.net, q, price);
  }

  /**
   After any fills: realised PnL minus (sell cash - buy cash + net * average) is exactly the signed sum of the
   truncation remainders. Closes and flips contribute nothing.
   */
  lemma {:induction false} PnlIdentity(ts: seq<Trade>)
    requires Tradable(ts)
    ensures var p := Book(ts);
            p.pnl - (SellCash(ts) - BuyCash(ts) + p.net * p.avgPrice) == RemainderSum(ts)
  {
    if ts != [] {
      var front, t := ts[..|ts| - 1], ts[|ts| - 1];
      PnlIdentity(front);
      var p := Book(front);
      if p.net == 0 {
        assert p.net * p.avgPrice == 0;
      } else if SameDirection(p.net, t.q) {
        AddingFill(p, t.q, t.price);
      } else {
        ClosingFill(p, t.q, t.price);
      }
      assert -t.q * t.price == -(t.q * t.price);
    }
  }

  /** Each remainder is smaller in size than the position just averaged. */
  lemma RemainderIsSmall(p: Position, t: Trade)
    requires SameDirection(p.net, t.q)
    ensures Abs(Remainder(p, t)) < Abs(FillPosition(p, t.q, t.price).net)
  {
    TruncDivBounds(Notional(p, t.q, t.price), Abs(p.net) + Abs(t.q));
  }

  // ---------------------------------------------------------------- the average stays in range

  /** Lowest and highest fill price since the position last opened or flipped. */
  function OpenRange(ts: seq<Trade>): (int, int)
    requires Tradable(ts)
  {
    if ts == [] then (0, 0)
    else
      var front, t := ts[..|ts| - 1], ts[|ts| - 1];
      var p := Book(front);
      var (low, high) := OpenRange(front);
      if p.net == 0 then (t.price, t.price)
      else if SameDirection(p.net, t.q) then (Min(low, t.price), Max(high, t.price))
      else if SameDirection(p.net, p.net + t.q) then (low, high)
      else (t.price, t.price)
  }

  lemma {:induction false} TruncDivBetween(a: int, b: int, low: int, high: int)
    requires 0 < b && low * b <= a <= high * b
    ensures low <= TruncDiv(a, b) <= high
    decreases Abs(a)
  {
    if b <= a {
      MulDistributes(low, 1, b);
      MulDistributes(high, 1, b);
      TruncDivBetween(a - b, b, low - 1, high - 1);
    } else if a <= -b {
      MulDistributes(low, 1, b);
      MulDistributes(high, 1, b);
      TruncDivBetween(a + b, b, low + 1, high + 1);
    } else {
      if 0 < low {
        MulMonotone(1, low, b);
      }
      if high < 0 {
        MulMonotone(high, -1, b);
      }
    }
  }

  lemma MulMonotone(x: int, y: int, b: int)
    requires x <= y && 0 <= b
    ensures x * b <= y * b
  {
    assert 0 <= (y - x) * b;
  }

  lemma WeightedBetween(x: int, y: int, a: nat, b: nat, low: int, high: int)
    requires low <= x <= high && low <= y <= high
    ensures low * (a + b) <= LotsAt(x, a) + LotsAt(y, b) <= high * (a + b)
  {
    MulMonotone(low, x, a);
    MulMonotone(low, y, b);
    MulMonotone(x, high, a);
    MulMonotone(y, high, b);
    MulDistributes(a, b, low);
    MulDistributes(a, b, high);
  }

  /** While a position is open its average lies between those two prices, whatever the prices are. */
  lemma {:induction false} AverageStaysInRange(ts: seq<Trade>)
    requires Tradable(ts)
    ensures Book(ts).net != 0 ==> OpenRange(ts).0 <= Book(ts).avgPrice <= OpenRange(ts).1
  {
    if ts != [] {
      var front, t := ts[..|ts| - 1], ts[|ts| - 1];
      AverageStaysInRange(front);
      var p := Book(front);
      var (low, high) := OpenRange(front);
      if p.net != 0 && SameDirection(p.net, t.q) {
        var l, h := Min(low, t.price), Max(high, t.price);
        WeightedBetween(p.avgPrice, t.price, Abs(p.net), Abs(t.q), l, h);
        TruncDivBetween(Notional(p, t.q, t.price), Abs(p.net) + Abs(t.q), l, h);
      }
    }
  }

  // ---------------------------------------------------------------- int64 is wide enough

  /** Traded quantity of a sequence of updates. */
  function Volume(us: seq<Update>): nat {
    if us == [] then 0
    else Volume(us[..|us| - 1]) + (if Fills(us[|us| - 1]) then us[|us| - 1].data.fill.qty else 0)
  }

  predicate PricesWithin(us: seq<Update>, cap: int) {
    forall i :: 0 <= i < |us| && Fills(us[i]) ==> 0 <= FillPrice(us[i]) <= cap
  }

  /** Every value `apply_fill` computes on the way fits in an int64. */
  predicate FillFits(p: Position, q: int, price: int, pnlTotal: int)
    requires q != 0
  {
    var p' := FillPosition(p, q, price);
    && InInt64(q) && InInt64(p'.bought) && InInt64(p'.sold) && InInt64(p'.net)
    && (SameDirection(p.net, q) ==>
        && InInt64(Abs(p.net) + Abs(q))
        && InInt64(LotsAt(p.avgPrice, Abs(p.net))) && InInt64(LotsAt(price, Abs(q)))
        && InInt64(Notional(p, q, price))
        && InInt64(p'.avgPrice))
    && (p.net != 0 && !SameDirection(p.net, q) ==>
        && InInt64(price - p.avgPrice) && InInt64(p.avgPrice - price)
        && InInt64(CloseProfit(p, q, price)) && InInt64(p'.pnl) && InInt64(p'.closed)
        && InInt64(pnlTotal + CloseProfit(p, q, price)))
  }

  /** Prices at most `cap`, and no more than `volume` traded. */
  ghost predicate Bounded(l: Ledger, cap: nat, volume: nat) {
    && PositionsAlgebra(l)
    && (forall k :: k in l.positions ==> PositionBounded(l.positions[k], cap, volume))
    && Abs(l.pnlTotal) <= Worth(cap, volume)
  }

  /** A bound of `cap` per lot. */
  function Worth(cap: nat, x: int): int {
    cap * x
  }

  lemma LotsAtMonotone(low: int, high: int, lots: nat)
    requires low <= high
    ensures LotsAt(low, lots) <= LotsAt(high, lots) && LotsAt(-high, lots) == -LotsAt(high, lots)
  {
    MulMonotone(low, high, lots);
    MulDistributes(0, high, lots);
  }

  lemma LotsAtNonNegative(price: nat, lots: nat)
    ensures 0 <= LotsAt(price, lots)
  {
    MulMonotone(0, price, lots);
  }

  lemma WorthGrows(cap: nat, x: nat, more: nat)
    ensures Worth(cap, x + more) == Worth(cap, x) + Worth(cap, more)
    ensures 0 <= Worth(cap, more)
  {
    MulDistributes(x, more, cap);
    LotsAtNonNegative(cap, more);
  }

  predicate PositionBounded(p: Position, cap: nat, volume: nat) {
    && 0 <= p.avgPrice <= cap
    && p.bought + p.sold <= volume
    && Abs(p.pnl) <= Worth(cap, p.closed)
  }

  lemma SmallProduct(x: int, y: int, cap: nat, volume: nat)
    requires 0 <= x <= cap && 0 <= y <= volume
    ensures 0 <= x * y <= cap * volume
    ensures 0 <= y * x <= cap * volume
  {
    MulMonotone(x, cap, y);
    MulMonotone(y, volume, cap);
    assert x * y == y * x;
    assert y * cap == cap * y && volume * cap == cap * volume;
  }

  lemma ProfitBounded(p: Position, q: int, price: int, cap: nat)
    requires q != 0 && 0 <= price <= cap && 0 <= p.avgPrice <= cap
    ensures Abs(CloseProfit(p, q, price)) <= Worth(cap, CloseQty(p, q))
  {
    var c := CloseQty(p, q);
    var d := if 0 < p.net then price - p.avgPrice else p.avgPrice - price;
    LotsAtMonotone(d, cap, c);
    LotsAtMonotone(-(cap as int), d, c);
  }

  lemma AddStaysBounded(p: Position, q: int, price: int, cap: nat)
    requires SameDirection(p.net, q) && 0 <= price <= cap && 0 <= p.avgPrice <= cap
    ensures 0 <= FillPosition(p, q, price).avgPrice <= cap
  {
    WeightedBetween(p.avgPrice, price, Abs(p.net), Abs(q), 0, cap);
    TruncDivBetween(Notional(p, q, price), Abs(p.net) + Abs(q), 0, cap);
  }

  lemma CloseStaysBounded(p: Position, q: int, price: int, cap: nat)
    requires q != 0 && p.net != 0 && !SameDirection(p.net, q) && 0 <= price <= cap && 0 <= p.avgPrice <= cap
    requires 0 <= p.closed && Abs(p.pnl) <= Worth(cap, p.closed)
    ensures Abs(CloseProfit(p, q, price)) <= Worth(cap, Abs(q))
    ensures Abs(p.pnl + CloseProfit(p, q, price)) <= Worth(cap, p.closed + CloseQty(p, q))
  {
    var c := CloseQty(p, q);
    ProfitBounded(p, q, price, cap);
    WorthGrows(cap, p.closed, c);
    WorthGrows(cap, c, Abs(q) - c);
  }

  lemma FillStaysBounded(p: Position, q: int, price: int, cap: nat, volume: nat)
    requires q != 0 && 0 <= price <= cap && PositionAlgebra(p) && PositionBounded(p, cap, volume)
    ensures PositionBounded(FillPosition(p, q, price), cap, volume + Abs(q))
    ensures Abs(FillPosition(p, q, price).pnl - p.pnl) <= Worth(cap, Abs(q))
  {
    LotsAtNonNegative(cap, Abs(q));
    if p.net != 0 {
      if SameDirection(p.net, q) {
        AddStaysBounded(p, q, price, cap);
      } else {
        CloseStaysBounded(p, q, price, cap);
      }
    }
  }

  lemma BookedPosition(l: Ledger, k: Key, p: Position, q: int, price: int, cap: nat, volume: nat)
    requires Bounded(l, cap, volume) && p == PositionAt(l, k) && q != 0 && 0 <= price <= cap
    ensures PositionBounded(FillPosition(p, q, price), cap, volume + Abs(q))
    ensures Abs(FillPosition(p, q, price).pnl - p.pnl) <= Worth(cap, Abs(q))
  {
    PositionOfBounded(l, k, p, cap, volume);
    FillStaysBounded(p, q, price, cap, volume);
  }

  lemma BookingStaysBounded(l: Ledger, k: Key, q: int, price: int, cap: nat, volume: nat)
    requires Bounded(l, cap, volume) && q != 0 && 0 <= price <= cap
    ensures Bounded(BookFill(l, k, q, price), cap, volume + Abs(q))
  {
    BookedPosition(l, k, PositionAt(l, k), q, price, cap, volume);
    BookingKeepsAlgebra(l, k, q, price);
    WorthGrows(cap, volume, Abs(q));
    ReplacedStaysBounded(l, k, q, price, cap, volume);
  }

  lemma ReplacedStaysBounded(l: Ledger, k: Key, q: int, price: int, cap: nat, volume: nat)
    requires Bounded(l, cap, volume) && q != 0 && PositionsAlgebra(BookFill(l, k, q, price))
    requires PositionBounded(FillPosition(PositionAt(l, k), q, price), cap, volume + Abs(q))
    requires Abs(FillPosition(PositionAt(l, k), q, price).pnl - PositionAt(l, k).pnl) <= Worth(cap, Abs(q))
    requires Worth(cap, volume + Abs(q)) == Worth(cap, volume) + Worth(cap, Abs(q))
    ensures Bounded(BookFill(l, k, q, price), cap, volume + Abs(q))
  {
  }

  lemma OtherUpdateStaysBounded(l: Ledger, u: Update, cap: nat, volume: nat)
    requires Bounded(l, cap, volume) && !Fills(u)
    ensures Bounded(OnUpdate(l, u).0, cap, volume)
  {
    var l' := OnUpdate(l, u).0;
    assert l'.positions == l.positions && l'.pnlTotal == l.pnlTotal;
  }

  lemma {:induction false} BoundedAlways(us: seq<Update>, cap: nat)
    requires PricesWithin(us, cap)
    ensures Bounded(OnUpdates(EMPTY_LEDGER, us), cap, Volume(us))
  {
    if us != [] {
      var front, u := us[..|us| - 1], us[|us| - 1];
      BoundedAlways(front, cap);
      OnUpdatesSnoc(EMPTY_LEDGER, front, u);
      assert us == front + [u];
      if Fills(u) {
        BookingStaysBounded(OnUpdates(EMPTY_LEDGER, front), FillKey(u), FillQty(u), FillPrice(u), cap, Volume(front));
      } else {
        OtherUpdateStaysBounded(OnUpdates(EMPTY_LEDGER, front), u, cap, Volume(front));
      }
    }
  }

  lemma AddFits(p: Position, q: int, price: int, cap: nat, volume: nat)
    requires SameDirection(p.net, q) && 0 <= price <= cap && 0 <= p.avgPrice <= cap
    requires Abs(p.net) <= volume && Worth(cap, volume + Abs(q)) <= INT64_MAX
    ensures InInt64(LotsAt(p.avgPrice, Abs(p.net))) && InInt64(LotsAt(price, Abs(q))) && InInt64(Notional(p, q, price))
  {
    LotsAtMonotone(p.avgPrice, cap, Abs(p.net));
    LotsAtMonotone(price, cap, Abs(q));
    LotsAtNonNegative(p.avgPrice, Abs(p.net));
    LotsAtNonNegative(price, Abs(q));
    WorthGrows(cap, Abs(p.net), volume - Abs(p.net));
    WorthGrows(cap, volume, Abs(q));
  }

  lemma QuantitiesFit(cap: nat, total: nat)
    requires 1 <= cap && 1 <= total && Worth(cap, total) <= INT64_MAX
    ensures total <= INT64_MAX && cap <= INT64_MAX
  {
    SmallProduct(1, total, cap, total);
    SmallProduct(cap, 1, cap, total);
  }

  lemma FillFitsWhenBounded(p: Position, q: int, price: int, cap: nat, volume: nat, pnlTotal: int)
    requires q != 0 && 0 <= price <= cap && 1 <= cap && PositionAlgebra(p) && PositionBounded(p, cap, volume)
    requires Worth(cap, volume + Abs(q)) <= INT64_MAX && Abs(pnlTotal) <= Worth(cap, volume)
    ensures FillFits(p, q, price, pnlTotal)
  {
    var total := volume + Abs(q);
    var p' := FillPosition(p, q, price);
    QuantitiesFit(cap, total);
    FillStaysBounded(p, q, price, cap, volume);
    FillKeepsAlgebra(p, q, price);
    WorthGrows(cap, volume, Abs(q));
    if SameDirection(p.net, q) {
      AddFits(p, q, price, cap, volume);
    } else if p.net != 0 {
      CloseStaysBounded(p, q, price, cap);
      WorthGrows(cap, p'.closed, total - p'.closed);
    }
  }

  /**
   After any updates `us` leading to ledger `l`, let a fill `u` arrive. With all fill prices in [0, cap], cap >= 1,
   and cap times the quantity traded so far, `u` included, within int64: no intermediate of `apply_fill` leaves int64.
   */
  lemma Int64IsWideEnough(us: seq<Update>, u: Update, cap: nat, l: Ledger)
    requires PricesWithin(us, cap) && 1 <= cap && Fills(u) && 0 <= FillPrice(u) <= cap
    requires cap * (Volume(us) + u.data.fill.qty) <= INT64_MAX && l == OnUpdates(EMPTY_LEDGER, us)
    ensures FillFits(PositionAt(l, FillKey(u)), FillQty(u), FillPrice(u), l.pnlTotal)
  {
    var k := FillKey(u);
    if k in l.positions {
      FillOfKnownMarketFits(us, k, FillQty(u), FillPrice(u), cap, l, l.positions[k]);
    } else {
      QuantitiesFit(cap, Volume(us) + u.data.fill.qty);
      OpeningFillFits(FillQty(u), FillPrice(u), l.pnlTotal);
    }
  }

  lemma FillOfKnownMarketFits(us: seq<Update>, k: Key, q: int, price: int, cap: nat, l: Ledger, p: Position)
    requires PricesWithin(us, cap) && 1 <= cap && q != 0 && 0 <= price <= cap
    requires Worth(cap, Volume(us) + Abs(q)) <= INT64_MAX
    requires l == OnUpdates(EMPTY_LEDGER, us) && k in l.positions && p == l.positions[k]
    ensures FillFits(p, q, price, l.pnlTotal)
  {
    BoundedAlways(us, cap);
    PositionOfBounded(l, k, p, cap, Volume(us));
    TotalOfBounded(l, cap, Volume(us));
    FillFitsWhenBounded(p, q, price, cap, Volume(us), l.pnlTotal);
  }

  lemma OpeningFillFits(q: int, price: int, pnlTotal: int)
    requires q != 0 && Abs(q) <= INT64_MAX
    ensures FillFits(FLAT, q, price, pnlTotal)
  {
  }

  lemma PnlBoundedByClosed(us: seq<Update>, cap: nat, k: Key)
    requires PricesWithin(us, cap)
    ensures var p := PositionAt(OnUpdates(EMPTY_LEDGER, us), k); Abs(p.pnl) <= cap * p.closed
  {
    BoundedAlways(us, cap);
    var p := PositionAt(OnUpdates(EMPTY_LEDGER, us), k);
    PositionOfBounded(OnUpdates(EMPTY_LEDGER, us), k, p, cap, Volume(us));
  }

  lemma PositionOfBounded(l: Ledger, k: Key, p: Position, cap: nat, volume: nat)
    requires Bounded(l, cap, volume) && p == PositionAt(l, k)
    ensures PositionAlgebra(p) && PositionBounded(p, cap, volume)
  {
    if k !in l.positions {
      FlatBounded(cap, volume);
    }
  }

  lemma FlatBounded(cap: nat, volume: nat)
    ensures PositionBounded(FLAT, cap, volume)
  {
    assert cap * 0 == 0;
  }

  lemma TotalOfBounded(l: Ledger, cap: nat, volume: nat)
    requires Bounded(l, cap, volume)
    ensures Abs(l.pnlTotal) <= Worth(cap, volume)
  {
  }
}
