/** The two risk gates an order passes before it is sent, as decisions over an intent and a snapshot. */
module RiskGates {
  import opened MarketTypes
  import opened OmsTypes

  datatype GlobalReject = ActiveOrdersGlobal | ActiveOrdersMarket | OutstandingQtyGlobal | OutstandingQtyMarket

  datatype PortfolioReject = InvalidIntent | AbsNetPositionMarket | AbsPositionGrossGlobal | RealizedPnlFloor

  /** The flow that creates exposure. Cancels, and unknown actions, pass both gates. */
  predicate Creates(intent: Intent) {
    intent.action == Place || intent.action == Replace
  }

  /** A limit of zero or less is switched off. */
  predicate Within(limit: int, x: int) {
    limit > 0 ==> x <= limit
  }

  /** No reject exactly when every switched-on limit still holds with the intent counted in. */
  function EvaluateGlobal(cfg: GlobalRiskConfig, intent: Intent, s: GlobalRiskSnapshot): (r: Option<GlobalReject>)
    ensures r.None? <==>
      (Creates(intent) ==>
        && Within(cfg.maxActiveGlobal, s.activeGlobal + 1)
        && Within(cfg.maxActivePerMarket, s.activeMarket + 1)
        && Within(cfg.maxOutstandingGlobal, s.outstandingGlobal + Max(0, intent.qty))
        && Within(cfg.maxOutstandingPerMarket, s.outstandingMarket + Max(0, intent.qty)))
  {
    if !Creates(intent) then None
    else if cfg.maxActiveGlobal > 0 && s.activeGlobal >= cfg.maxActiveGlobal then Some(ActiveOrdersGlobal)
    else if cfg.maxActivePerMarket > 0 && s.activeMarket >= cfg.maxActivePerMarket then Some(ActiveOrdersMarket)
    else
      var qty := Max(intent.qty, 0);
      if cfg.maxOutstandingGlobal > 0 && s.outstandingGlobal + qty > cfg.maxOutstandingGlobal then
        Some(OutstandingQtyGlobal)
      else if cfg.maxOutstandingPerMarket > 0 && s.outstandingMarket + qty > cfg.maxOutstandingPerMarket then
        Some(OutstandingQtyMarket)
      else None
  }

  function SignedIntentQty(intent: Intent): int {
    if intent.qty <= 0 then 0 else SignedQty(intent.side, intent.qty)
  }

  function ProjectedNet(intent: Intent, s: PortfolioRiskSnapshot): int {
    s.netMarket + SignedIntentQty(intent)
  }

  function ProjectedGross(intent: Intent, s: PortfolioRiskSnapshot): int {
    s.grossGlobal - Abs(s.netMarket) + Abs(ProjectedNet(intent, s))
  }

  function EvaluatePortfolio(cfg: PortfolioRiskConfig, intent: Intent, s: PortfolioRiskSnapshot)
    : (r: Option<PortfolioReject>)
    ensures r.None? <==>
      (Creates(intent) ==>
        && (cfg.enforcePnlFloor ==> cfg.minRealizedPnl <= s.realizedPnl)
        && intent.qty > 0 && intent.side != UnknownSide
        && Within(cfg.maxAbsNetPerMarket, Abs(ProjectedNet(intent, s)))
        && Within(cfg.maxGrossGlobal, ProjectedGross(intent, s)))
  {
    if !Creates(intent) then None
    else if cfg.enforcePnlFloor && s.realizedPnl < cfg.minRealizedPnl then Some(RealizedPnlFloor)
    else if SignedIntentQty(intent) == 0 then Some(InvalidIntent)
    else if cfg.maxAbsNetPerMarket > 0 && Abs(ProjectedNet(intent, s)) > cfg.maxAbsNetPerMarket then
      Some(AbsNetPositionMarket)
    else if cfg.maxGrossGlobal > 0 && ProjectedGross(intent, s) > cfg.maxGrossGlobal then
      Some(AbsPositionGrossGlobal)
    else None
  }

  function GlobalRejectName(code: GlobalReject): string {
    match code
    case ActiveOrdersGlobal => "active_orders_global_limit"
    case ActiveOrdersMarket => "active_orders_market_limit"
    case OutstandingQtyGlobal => "outstanding_qty_global_limit"
    case OutstandingQtyMarket => "outstanding_qty_market_limit"
  }

  function PortfolioRejectName(code: PortfolioReject): string {
    match code
    case InvalidIntent => "invalid_intent"
    case AbsNetPositionMarket => "abs_net_position_market_limit"
    case AbsPositionGrossGlobal => "abs_position_gross_global_limit"
    case RealizedPnlFloor => "realized_pnl_floor"
  }
}
