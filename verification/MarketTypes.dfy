/** Value types shared by the market-data and the order-management models. */
module MarketTypes {

  datatype Option<+T> = None | Some(value: T)

  datatype Side = UnknownSide | Bid | Ask | Buy | Sell

  datatype ExchangeId = UnknownExchange | Kalshi | Polymarket

  // Prices, quantities and realised PnL are int64 in the program. The models use unbounded
  // integers; `InInt64` is the explicit range check where the width is part of a claim.
  const INT64_MAX: int := 0x7fff_ffff_ffff_ffff

  predicate InInt64(x: int) {
    -INT64_MAX - 1 <= x <= INT64_MAX
  }

  function Abs(x: int): nat {
    if x < 0 then -x else x
  }

  function Min(x: int, y: int): int {
    if x < y then x else y
  }

  function Max(x: int, y: int): int {
    if x < y then y else x
  }

  /** Buying sides count positive, selling sides negative, the unknown side nothing. */
  function SignedQty(side: Side, qty: int): int {
    match side
    case Buy => qty
    case Bid => qty
    case Sell => -qty
    case Ask => -qty
    case UnknownSide => 0
  }
}
