/** Order intents and order updates, as the order manager, the ledger and the venue exchange them. */
module OmsTypes {
  import opened MarketTypes

  datatype OmsAction = UnknownAction | Place | Cancel | Replace

  datatype OmsStatus =
    | UnknownStatus
    | Accepted
    | Rejected
    | Canceled
    | PartiallyFilled
    | Filled
    | Replaced

  datatype Intent = Intent(
    exchange: ExchangeId,
    action: OmsAction,
    clientId: string,
    targetClient: Option<string>,
    targetExchange: Option<string>,
    market: string,
    side: Side,
    qty: int,
    limitPrice: Option<int>)

  datatype Fill = Fill(market: string, qty: int, price: int, side: Side)

  datatype UpdateData = NoData | AckData(acceptedQty: int) | RejectData(reasonCode: string) | FillData(fill: Fill)

  datatype Update = Update(
    exchange: ExchangeId,
    status: OmsStatus,
    clientId: string,
    exchangeId: Option<string>,
    market: string,
    data: UpdateData)

  // What the risk gates look at and what they are configured with.
  datatype GlobalRiskConfig = GlobalRiskConfig(
    maxActiveGlobal: nat,
    maxActivePerMarket: nat,
    maxOutstandingGlobal: int,
    maxOutstandingPerMarket: int)

  datatype GlobalRiskSnapshot = GlobalRiskSnapshot(
    activeGlobal: int,
    activeMarket: int,
    outstandingGlobal: int,
    outstandingMarket: int)

  datatype PortfolioRiskConfig = PortfolioRiskConfig(
    maxAbsNetPerMarket: int,
    maxGrossGlobal: int,
    minRealizedPnl: int,
    enforcePnlFloor: bool)

  datatype PortfolioRiskSnapshot = PortfolioRiskSnapshot(netMarket: int, grossGlobal: int, realizedPnl: int)
}
