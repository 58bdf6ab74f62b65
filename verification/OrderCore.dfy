/** The order manager's core on values: what a submission and what an update do to the tracked orders. */
module OrderCore {
  import opened MarketTypes
  import opened OmsTypes
  import opened RiskGates

  datatype InFlightStatus =
    | InPending
    | InAccepted
    | InPartiallyFilled
    | InFilled
    | InCanceled
    | InRejected
    | InReplaced

  datatype Order = Order(
    requestId: nat,
    action: OmsAction,
    status: InFlightStatus,
    clientId: string,
    exchangeId: Option<string>,
    replacing: Option<string>,
    market: string,
    side: Side,
    requested: int,
    filled: int)

  datatype Core = Core(
    orders: map<string, Order>,
    byExchange: map<string, string>,
    riskRejects: nat,
    portfolioRejects: nat,
    applied: nat,
    transitionRejects: nat,
    unknownUpdates: nat,
    policyRejects: nat)

  const EMPTY_CORE := Core(map[], map[], 0, 0, 0, 0, 0, 0)

  predicate IsTerminal(status: InFlightStatus) {
    status == InFilled || status == InCanceled || status == InRejected
  }

  function ToInFlight(status: OmsStatus): Option<InFlightStatus> {
    match status
    case Accepted => Some(InAccepted)
    case Rejected => Some(InRejected)
    case Canceled => Some(InCanceled)
    case PartiallyFilled => Some(InPartiallyFilled)
    case Filled => Some(InFilled)
    case Replaced => Some(InReplaced)
    case UnknownStatus => None
  }

  /** The transition table; staying in a status is always allowed. */
  predicate CanTransition(current: InFlightStatus, next: InFlightStatus) {
    current == next ||
    match current
    case InPending => next.InAccepted? || next.InPartiallyFilled? || IsTerminal(next)
    case InAccepted => next.InPartiallyFilled? || IsTerminal(next) || next.InReplaced?
    case InPartiallyFilled => IsTerminal(next) || next.InReplaced?
    case InReplaced => next.InAccepted? || next.InPartiallyFilled? || IsTerminal(next)
    case InFilled => false
    case InCanceled => false
    case InRejected => false
  }

  function Outstanding(o: Order): (q: int)
    ensures q == Max(0, o.requested - Max(0, o.filled))
  {
    if o.requested <= 0 then 0
    else if o.filled <= 0 then o.requested
    else if o.filled >= o.requested then 0
    else o.requested - o.filled
  }

  // ---------------------------------------------------------------- submissions

  datatype PolicyError =
    | MissingClientId
    | ReusedClientId
    | UnsupportedAction
    | UnknownExchangeTarget
    | TargetsDisagree
    | NoTarget
    | TargetNotTracked
    | TargetTerminal
    | ReplaceNeedsNewId
    | ReplaceIdExists
    | ReplaceMarketMismatch

  /** The target named by client id; a cancel without one targets its own id. */
  function ClientTarget(intent: Intent): Option<string> {
    if intent.targetClient.Some? then intent.targetClient
    else if intent.action == Cancel then Some(intent.clientId)
    else None
  }

  /** The target named by exchange id, looked up in the index. */
  function ExchangeTarget(c: Core, intent: Intent): Option<string> {
    if intent.targetExchange.Some? && intent.targetExchange.value in c.byExchange then
      Some(c.byExchange[intent.targetExchange.value])
    else None
  }

  function Target(c: Core, intent: Intent): Option<string> {
    if ClientTarget(intent).Some? then ClientTarget(intent) else ExchangeTarget(c, intent)
  }

  /** Why a cancel or replace cannot be resolved to a live order. */
  function TargetError(c: Core, intent: Intent): Option<PolicyError> {
    var byClient, byExchange := ClientTarget(intent), ExchangeTarget(c, intent);
    if intent.targetExchange.Some? && byExchange.None? then Some(UnknownExchangeTarget)
    else if byClient.Some? && byExchange.Some? && byClient != byExchange then Some(TargetsDisagree)
    else if Target(c, intent).None? then Some(NoTarget)
    else if Target(c, intent).value !in c.orders then Some(TargetNotTracked)
    else if IsTerminal(c.orders[Target(c, intent).value].status) then Some(TargetTerminal)
    else None
  }

  function ReplaceError(c: Core, intent: Intent): Option<PolicyError>
    requires Target(c, intent).Some? && Target(c, intent).value in c.orders
  {
    var target := c.orders[Target(c, intent).value];
    if Target(c, intent).value == intent.clientId then Some(ReplaceNeedsNewId)
    else if intent.clientId in c.orders then Some(ReplaceIdExists)
    else if intent.market != "" && target.market != "" && intent.market != target.market then
      Some(ReplaceMarketMismatch)
    else None
  }

  function PolicyCheck(c: Core, intent: Intent): Option<PolicyError> {
    if intent.clientId == "" then Some(MissingClientId)
    else if intent.action == Place then
      if intent.clientId in c.orders then Some(ReusedClientId) else None
    else if intent.action == UnknownAction then Some(UnsupportedAction)
    else if TargetError(c, intent).Some? then TargetError(c, intent)
    else if intent.action == Replace then ReplaceError(c, intent)
    else None
  }

  /** The order an accepted place or replace adds; a replace inherits what it does not say. */
  function NewOrder(c: Core, requestId: nat, intent: Intent): Order
    requires PolicyCheck(c, intent).None? && Creates(intent)
  {
    if intent.action == Place then
      Order(requestId, Place, InPending, intent.clientId, None, None, intent.market, intent.side, intent.qty, 0)
    else
      var t := Target(c, intent).value;
      var target := c.orders[t];
      Order(requestId, Replace, InPending, intent.clientId, None, Some(t),
            if intent.market != "" then intent.market else target.market,
            if intent.side != UnknownSide then intent.side else target.side,
            if intent.qty > 0 then intent.qty else target.requested, 0)
  }

  function Track(c: Core, requestId: nat, intent: Intent): (Core, Option<PolicyError>) {
    var error := PolicyCheck(c, intent);
    if error.Some? then (c.(policyRejects := c.policyRejects + 1), error)
    else if Creates(intent) then
      (c.(orders := c.orders[intent.clientId := NewOrder(c, requestId, intent)]), None)
    else (c, None)
  }

  // ---------------------------------------------------------------- updates

  datatype Outcome = Applied | TransitionRejected | UnknownOrder

  /** The tracked order an update is about: by client id, else through the exchange-id index. */
  function Subject(c: Core, u: Update): (id: Option<string>)
    ensures id.Some? ==> id.value in c.orders
  {
    if u.clientId in c.orders then Some(u.clientId)
    else if u.exchangeId.Some? && u.exchangeId.value in c.byExchange
            && c.byExchange[u.exchangeId.value] in c.orders then
      Some(c.byExchange[u.exchangeId.value])
    else None
  }

  function OutcomeOf(c: Core, u: Update): Outcome {
    if ToInFlight(u.status).None? then TransitionRejected
    else if Subject(c, u).None? then UnknownOrder
    else if !CanTransition(c.orders[Subject(c, u).value].status, ToInFlight(u.status).value) then TransitionRejected
    else Applied
  }

  /** A fill that does not say its side takes the order's. */
  function WithSide(o: Order, u: Update): Update {
    if u.data.FillData? && u.data.fill.side == UnknownSide then
      u.(data := FillData(u.data.fill.(side := o.side)))
    else u
  }

  /** A reported fill quantity counts as the total so far; a complete fill counts as all that was asked for. */
  function FilledAfter(o: Order, next: InFlightStatus, u: Update): int {
    if !u.data.FillData? then o.filled
    else if next == InFilled && o.requested > 0 then o.requested
    else Max(o.filled, u.data.fill.qty)
  }

  predicate NamesExchangeId(u: Update) {
    u.exchangeId.Some? && u.exchangeId.value != ""
  }

  function UpdatedOrder(o: Order, next: InFlightStatus, u: Update): Order {
    o.(status := next,
       market := if u.market != "" then u.market else o.market,
       exchangeId := if NamesExchangeId(u) then u.exchangeId else o.exchangeId,
       side := if u.data.FillData? && o.side == UnknownSide then u.data.fill.side else o.side,
       filled := FilledAfter(o, next, u))
  }

  /** The new core, the update as passed on (with its side filled in), and what became of it. */
  function Apply(c: Core, u: Update): (Core, Update, Outcome) {
    match OutcomeOf(c, u)
    case TransitionRejected => (c.(transitionRejects := c.transitionRejects + 1), u, TransitionRejected)
    case UnknownOrder => (c.(unknownUpdates := c.unknownUpdates + 1), u, UnknownOrder)
    case Applied =>
      var id := Subject(c, u).value;
      var o := c.orders[id];
      (c.(orders := c.orders[id := UpdatedOrder(o, ToInFlight(u.status).value, u)],
          byExchange := if NamesExchangeId(u) then c.byExchange[u.exchangeId.value := o.clientId] else c.byExchange,
          applied := c.applied + 1),
       WithSide(o, u), Applied)
  }

  // ---------------------------------------------------------------- the global gate's view

  predicate Counted(orders: map<string, Order>, id: string, skip: string)
    requires id in orders
  {
    !IsTerminal(orders[id].status) && (skip == "" || id != skip)
  }

  predicate InMarket(o: Order, market: string) {
    market != "" && o.market == market
  }

  /** What one order adds to a snapshot. */
  function Share(orders: map<string, Order>, id: string, market: string, skip: string): GlobalRiskSnapshot
    requires id in orders
  {
    if !Counted(orders, id, skip) then GlobalRiskSnapshot(0, 0, 0, 0)
    else
      var open := Outstanding(orders[id]);
      if InMarket(orders[id], market) then GlobalRiskSnapshot(1, 1, open, open) else GlobalRiskSnapshot(1, 0, open, 0)
  }

  function Plus(a: GlobalRiskSnapshot, b: GlobalRiskSnapshot): GlobalRiskSnapshot {
    GlobalRiskSnapshot(a.activeGlobal + b.activeGlobal, a.activeMarket + b.activeMarket,
                       a.outstandingGlobal + b.outstandingGlobal, a.outstandingMarket + b.outstandingMarket)
  }

  ghost function Sum<K>(shares: map<K, GlobalRiskSnapshot>, ids: set<K>): GlobalRiskSnapshot
    requires ids <= shares.Keys
    decreases ids
  {
    if ids == {} then GlobalRiskSnapshot(0, 0, 0, 0)
    else
      var id :| id in ids;
      Plus(shares[id], Sum(shares, ids - {id}))
  }

  /** The sum can be split at any order, so the order of the program's loop does not matter. */
  lemma {:induction false} SplitSum<K>(shares: map<K, GlobalRiskSnapshot>, ids: set<K>, id: K)
    requires id in ids && ids <= shares.Keys
    ensures Sum(shares, ids) == Plus(shares[id], Sum(shares, ids - {id}))
    decreases ids
  {
    var first :| first in ids && Sum(shares, ids) == Plus(shares[first], Sum(shares, ids - {first}));
    if first != id {
      SplitSum(shares, ids - {first}, id);
      SplitSum(shares, ids - {id}, first);
      assert (ids - {first}) - {id} == (ids - {id}) - {first};
      PlusCommutes(shares[first], shares[id], Sum(shares, ids - {first} - {id}));
    }
  }

  lemma PlusCommutes(a: GlobalRiskSnapshot, b: GlobalRiskSnapshot, c: GlobalRiskSnapshot)
    ensures Plus(a, Plus(b, c)) == Plus(b, Plus(a, c)) == Plus(Plus(a, b), c)
  {
  }

  ghost function Shares(orders: map<string, Order>, market: string, skip: string): map<string, GlobalRiskSnapshot> {
    map id | id in orders :: Share(orders, id, market, skip)
  }

  /** Live orders and their open quantity, over all markets and in one, leaving out one id. */
  ghost function RiskSnapshot(orders: map<string, Order>, market: string, skip: string): GlobalRiskSnapshot {
    Sum(Shares(orders, market, skip), orders.Keys)
  }

  ghost function GlobalDecision(c: Core, cfg: GlobalRiskConfig, intent: Intent): Option<GlobalReject> {
    EvaluateGlobal(cfg, intent, RiskSnapshot(c.orders, intent.market, intent.clientId))
  }

  /** What a gate tells the order it turned down. */
  function RejectUpdate(intent: Intent, reason: string): Update {
    Update(intent.exchange, Rejected, intent.clientId, None, intent.market, RejectData(reason))
  }
}
