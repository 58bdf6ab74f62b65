/** The Kalshi order adapter: intents to requests, messages to updates. JSON objects are records of optional fields. */
module KalshiAdapter {
  import opened MarketTypes
  import opened OmsTypes

  /** A request as a JSON object; a field that is absent or of the wrong JSON type is `None`. */
  datatype Request = Request(
    action: Option<string>,
    clientId: Option<string>,
    targetClient: Option<string>,
    targetExchange: Option<string>,
    market: Option<string>,
    side: Option<string>,
    qty: Option<int>,
    limitPrice: Option<int>)

  datatype Message =
    | AckMessage(clientId: Option<string>, exchangeId: Option<string>, market: Option<string>, acceptedQty: Option<int>)
    | RejectMessage(clientId: Option<string>, exchangeId: Option<string>, market: Option<string>,
                    reasonCode: Option<string>)
    | FillMessage(clientId: Option<string>, exchangeId: Option<string>, market: Option<string>,
                  qty: Option<int>, price: Option<int>, side: Option<string>)
    | OtherMessage

  function SideName(side: Side): string {
    match side
    case Buy => "buy"
    case Sell => "sell"
    case Bid => "bid"
    case Ask => "ask"
    case UnknownSide => "unknown"
  }

  function SideFromName(name: string): Option<Side> {
    if name == "buy" then Some(Buy)
    else if name == "sell" then Some(Sell)
    else if name == "bid" then Some(Bid)
    else if name == "ask" then Some(Ask)
    else None
  }

  lemma SideNames()
    ensures SideName(Buy) == "buy" && SideName(Sell) == "sell" && SideName(Bid) == "bid" && SideName(Ask) == "ask"
  {
  }

  /** Exactly the known sides survive being written and read back. */
  lemma SideNameRoundTrip(side: Side)
    ensures SideFromName(SideName(side)) == if side == UnknownSide then None else Some(side)
  {
    match side
    case Buy => assert SideName(side)[1] == 'u';
    case Sell => assert SideName(side)[0] == 's';
    case Bid => assert SideName(side)[1] == 'i';
    case Ask => assert SideName(side)[0] == 'a';
    case UnknownSide => assert SideName(side)[0] == 'u';
  }

  predicate Supports(intent: Intent) {
    intent.exchange == Kalshi && intent.action != UnknownAction
  }

  predicate ValidPlace(intent: Intent) {
    && intent.clientId != "" && intent.market != "" && intent.qty > 0
    && intent.side != UnknownSide && intent.limitPrice.Some?
  }

  predicate ValidReplace(intent: Intent) {
    && (intent.targetClient.Some? || intent.targetExchange.Some?)
    && intent.clientId != "" && intent.qty > 0 && intent.limitPrice.Some?
  }

  predicate ValidCancel(intent: Intent) {
    intent.clientId != "" || intent.targetClient.Some? || intent.targetExchange.Some?
  }

  predicate Buildable(intent: Intent) {
    Supports(intent) &&
    match intent.action
    case Place => ValidPlace(intent)
    case Cancel => ValidCancel(intent)
    case Replace => ValidReplace(intent)
    case UnknownAction => false
  }

  /**
   `None` where the adapter throws: exactly on unsupported intents and on those whose action lacks a required field.
   A request carries the name of the intent's action, its own id, targets, quantity and price.
   */
  function BuildRequest(intent: Intent): (r: Option<Request>)
    ensures r.Some? <==> Buildable(intent)
    ensures r.Some? ==>
      && (intent.action == Place <==> r.value.action == Some("place_order"))
      && (intent.action == Cancel <==> r.value.action == Some("cancel_order"))
      && (intent.action == Replace <==> r.value.action == Some("replace_order"))
      && r.value.clientId == Some(intent.clientId)
      && (intent.action == Place ==>
          r.value.market == Some(intent.market) && r.value.side == Some(SideName(intent.side)))
      && (intent.action != Place ==>
            r.value.targetClient == intent.targetClient && r.value.targetExchange == intent.targetExchange)
      && (intent.action != Cancel ==>
            0 < intent.qty && r.value.qty == Some(intent.qty) && r.value.limitPrice == intent.limitPrice)
  {
    assert |"place_order"| == 11 && |"cancel_order"| == 12 && |"replace_order"| == 13;
    if !Supports(intent) then None
    else match intent.action
      case Place =>
        if ValidPlace(intent) then
          Some(Request(Some("place_order"), Some(intent.clientId), None, None, Some(intent.market),
                       Some(SideName(intent.side)), Some(intent.qty), intent.limitPrice))
        else None
      case Cancel =>
        if ValidCancel(intent) then
          Some(Request(Some("cancel_order"), Some(intent.clientId), intent.targetClient, intent.targetExchange,
                       None, None, None, None))
        else None
      case Replace =>
        if ValidReplace(intent) then
          Some(Request(Some("replace_order"), Some(intent.clientId), intent.targetClient, intent.targetExchange,
                       None, None, Some(intent.qty), intent.limitPrice))
        else None
      case UnknownAction => None
  }

  function ActionFromName(name: string): OmsAction {
    if name == "place_order" then Place
    else if name == "cancel_order" then Cancel
    else if name == "replace_order" then Replace
    else UnknownAction
  }

  /** A request read back as an intent; what it does not carry is left empty. */
  function ReadRequest(r: Request): Intent {
    Intent(Kalshi,
           if r.action.Some? then ActionFromName(r.action.value) else UnknownAction,
           if r.clientId.Some? then r.clientId.value else "",
           r.targetClient, r.targetExchange,
           if r.market.Some? then r.market.value else "",
           SideOf(r.side),
           if r.qty.Some? then r.qty.value else 0,
           r.limitPrice)
  }

  /** What a request says of an intent: a place names no target, a replace no market or side, a cancel only ids. */
  function Carried(intent: Intent): Intent {
    match intent.action
    case Place => intent.(targetClient := None, targetExchange := None)
    case Replace => intent.(market := "", side := UnknownSide)
    case _ => intent.(market := "", side := UnknownSide, qty := 0, limitPrice := None)
  }

  /** Any request the adapter builds reads back as the intent it was built from, action first. */
  lemma RequestReadsBack(intent: Intent)
    requires BuildRequest(intent).Some?
    ensures ReadRequest(BuildRequest(intent).value) == Carried(intent)
  {
    assert |"place_order"| == 11 && |"cancel_order"| == 12 && |"replace_order"| == 13;
    SideNameRoundTrip(intent.side);
  }

  /** Which intents the adapter refuses, field by field. */
  lemma BuildsIff(intent: Intent)
    ensures var named := intent.targetClient.Some? || intent.targetExchange.Some?;
            BuildRequest(intent).Some? <==>
              intent.exchange == Kalshi &&
              match intent.action
              case Place =>
                && intent.clientId != "" && intent.market != "" && intent.qty > 0 && intent.limitPrice.Some?
                && (intent.side == Buy || intent.side == Sell || intent.side == Bid || intent.side == Ask)
              case Cancel => intent.clientId != "" || named
              case Replace => named && intent.clientId != "" && intent.qty > 0 && intent.limitPrice.Some?
              case UnknownAction => false
  {
  }

  /** The fields each kind of message must have. */
  predicate Readable(m: Message) {
    match m
    case AckMessage(clientId, _, market, qty) => clientId.Some? && market.Some? && qty.Some?
    case RejectMessage(clientId, _, _, reason) => clientId.Some? && reason.Some?
    case FillMessage(clientId, _, market, qty, price, _) => clientId.Some? && market.Some? && qty.Some? && price.Some?
    case OtherMessage => false
  }

  /** The side a message names; unknown if it names none, or none of the four. */
  function SideOf(name: Option<string>): (side: Side)
    ensures side != UnknownSide ==> name == Some(SideName(side))
  {
    if name.Some? && SideFromName(name.value).Some? then SideFromName(name.value).value else UnknownSide
  }

  /** Fails exactly on unreadable messages. Every fill is reported as complete, whatever its quantity. */
  function ParseUpdate(m: Message): (u: Option<Update>)
    ensures u.Some? <==> Readable(m)
    ensures u.Some? ==>
      && u.value.exchange == Kalshi && Some(u.value.clientId) == m.clientId && u.value.exchangeId == m.exchangeId
      && u.value.market == (if m.market.Some? then m.market.value else "")
      && (u.value.status == Accepted <==> m.AckMessage?) && (u.value.status == Rejected <==> m.RejectMessage?)
      && (u.value.status == Filled <==> m.FillMessage?) && (u.value.data.FillData? <==> m.FillMessage?)
      && (m.AckMessage? ==> u.value.data == AckData(m.acceptedQty.value))
      && (m.RejectMessage? ==> u.value.data == RejectData(m.reasonCode.value))
      && (m.FillMessage? ==> u.value.data == FillData(Fill(m.market.value, m.qty.value, m.price.value, SideOf(m.side))))
  {
    match m
    case AckMessage(clientId, exchangeId, market, qty) =>
      if clientId.Some? && market.Some? && qty.Some? then
        Some(Update(Kalshi, Accepted, clientId.value, exchangeId, market.value, AckData(qty.value)))
      else None
    case RejectMessage(clientId, exchangeId, market, reason) =>
      if clientId.Some? && reason.Some? then
        Some(Update(Kalshi, Rejected, clientId.value, exchangeId, if market.Some? then market.value else "",
                    RejectData(reason.value)))
      else None
    case FillMessage(clientId, exchangeId, market, qty, price, sideName) =>
      if clientId.Some? && market.Some? && qty.Some? && price.Some? then
        Some(Update(Kalshi, Filled, clientId.value, exchangeId, market.value,
                    FillData(Fill(market.value, qty.value, price.value, SideOf(sideName)))))
      else None
    case OtherMessage => None
  }
}
