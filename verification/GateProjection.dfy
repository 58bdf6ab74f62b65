/** The portfolio gate's projection against what the ledger computes once the fills arrive. */
module GateProjection {
  import opened MarketTypes
  import opened OmsTypes
  import opened MapTotals
  import opened LedgerModel
  import opened RiskGates

  /** Signed size of the fills among some updates. */
  function NetSum(us: seq<Update>): int {
    if us == [] then 0 else (if Fills(us[0]) then FillQty(us[0]) else 0) + NetSum(us[1..])
  }

  /** Updates whose fills, if any, all belong to market `k` and go in the direction of `delta`. */
  predicate FillsOnly(us: seq<Update>, k: Key, delta: int) {
    forall i :: 0 <= i < |us| && Fills(us[i]) ==> FillKey(us[i]) == k && SameDirection(delta, FillQty(us[i]))
  }

  lemma BookingMovesNet(l: Ledger, k: Key, q: int, price: int)
    requires q != 0
    ensures PositionAt(BookFill(l, k, q, price), k).net == PositionAt(l, k).net + q
  {
    FillMovesNet(PositionAt(l, k), q, price);
  }

  lemma FillMovesNet(p: Position, q: int, price: int)
    requires q != 0
    ensures FillPosition(p, q, price).net == p.net + q
  {
  }

  lemma BookingMovesGross(m: map<Key, Position>, k: Key, after: Position)
    ensures Total(Sizes(m[k := after], k.exchange))
            == Total(Sizes(m, k.exchange)) - (if k in m then Abs(m[k].net) else 0) + Abs(after.net)
  {
    TotalUpdate(Sizes(m, k.exchange), k, Abs(after.net));
    assert Sizes(m[k := after], k.exchange) == Sizes(m, k.exchange)[k := Abs(after.net) as int];
  }

  ghost function Gross(l: Ledger, exchange: ExchangeId): int {
    Total(Sizes(l.positions, exchange))
  }

  lemma UpdateMoves(l: Ledger, u: Update, k: Key)
    requires Fills(u) ==> FillKey(u) == k
    ensures var l' := OnUpdate(l, u).0;
            && PositionAt(l', k).net == PositionAt(l, k).net + (if Fills(u) then FillQty(u) else 0)
            && Gross(l', k.exchange) == Gross(l, k.exchange) - Abs(PositionAt(l, k).net) + Abs(PositionAt(l', k).net)
  {
    if Fills(u) {
      BookingMovesNet(l, k, FillQty(u), FillPrice(u));
      BookingMovesGross(l.positions, k, FillPosition(PositionAt(l, k), FillQty(u), FillPrice(u)));
    }
  }

  lemma {:induction false} UpdatesMove(l: Ledger, us: seq<Update>, k: Key)
    requires forall i :: 0 <= i < |us| && Fills(us[i]) ==> FillKey(us[i]) == k
    ensures var l' := OnUpdates(l, us);
            && PositionAt(l', k).net == PositionAt(l, k).net + NetSum(us)
            && Gross(l', k.exchange) == Gross(l, k.exchange) - Abs(PositionAt(l, k).net) + Abs(PositionAt(l', k).net)
    decreases |us|
  {
    if us != [] {
      UpdateMoves(l, us[0], k);
      UpdatesMove(OnUpdate(l, us[0]).0, us[1..], k);
    }
  }

  lemma {:induction false} SumHasDirection(us: seq<Update>, k: Key, delta: int)
    requires FillsOnly(us, k, delta)
    ensures NetSum(us) == 0 || SameDirection(delta, NetSum(us))
    decreases |us|
  {
    if us != [] {
      SumHasDirection(us[1..], k, delta);
    }
  }

  /**
   The gate allowed an intent on the ledger's own snapshot. Then whatever part of it fills, in however many
   fills, the market's net stays within the larger of its old size and the market limit, the gross stays within the
   larger of its old value and the gross limit, and once all of it has filled the recomputed gross is the projected
   one.
   */
  lemma AllowedIntentStaysWithinLimits(cfg: PortfolioRiskConfig, l: Ledger, intent: Intent, us: seq<Update>)
    requires Creates(intent)
    requires EvaluatePortfolio(cfg, intent, SnapshotFor(l, intent.exchange, intent.market)).None?
    requires FillsOnly(us, Key(intent.exchange, intent.market), SignedIntentQty(intent))
    requires Abs(NetSum(us)) <= intent.qty
    ensures var before := SnapshotFor(l, intent.exchange, intent.market);
            var after := SnapshotFor(OnUpdates(l, us), intent.exchange, intent.market);
            && (Within(cfg.maxAbsNetPerMarket, Abs(after.netMarket)) || Abs(after.netMarket) <= Abs(before.netMarket))
            && (Within(cfg.maxGrossGlobal, after.grossGlobal) || after.grossGlobal <= before.grossGlobal)
            && (Abs(NetSum(us)) == intent.qty ==>
                  && after.netMarket == ProjectedNet(intent, before)
                  && after.grossGlobal == ProjectedGross(intent, before))
  {
    var k := Key(intent.exchange, intent.market);
    var l' := OnUpdates(l, us);
    UpdatesMove(l, us, k);
    SumHasDirection(us, k, SignedIntentQty(intent));
    Convex(PositionAt(l, k).net, SignedIntentQty(intent), NetSum(us));
  }

  /** A partial move ends no further out than the start or the full move. */
  lemma Convex(net: int, delta: int, part: int)
    requires part == 0 || SameDirection(delta, part)
    requires Abs(part) <= Abs(delta)
    ensures Abs(net + part) <= Max(Abs(net), Abs(net + delta))
  {
  }
}
