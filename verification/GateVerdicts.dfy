/**
 What the two gates decide about an order the worker holds, and what becomes of that order, told with the tracked
 orders, the configured numbers and the reason codes; and the request ids the manager hands out.
 */
module GateVerdicts {
  import opened MarketTypes
  import opened OmsTypes
  import opened RiskGates
  import opened OrderCore
  import opened OrderCoreProperties
  import opened LedgerSides
  import opened OrderAcceptance
  import opened KalshiAdapter
  import opened OmsMachine
  import E = OmsExposure

  // ---------------------------------------------------------------- what the global gate counts

  /** The orders the gate counts against an intent: all that are open, but the intent's own. */
  function Others(orders: map<string, Order>, own: string): set<string> {
    set id | id in orders && StillOpen(orders[id].status) && (own == "" || id != own)
  }

  function OthersIn(orders: map<string, Order>, own: string, market: string): set<string> {
    set id | id in Others(orders, own) && market != "" && orders[id].market == market
  }

  lemma SameShares(orders: map<string, Order>, ids: set<string>, m: string, skip: string)
    requires ids <= orders.Keys && (skip == "" || skip !in ids)
    ensures Sum(Shares(orders, m, skip), ids) == E.SentExposure(orders, ids, m)
  {
    var own, all := Shares(orders, m, skip), Shares(orders, m, "");
    forall id | id in ids ensures own[id] == all[id] && E.AtMost(E.NOTHING, own[id]) {
      E.SharesAreNonNegative(orders, id, m, skip);
    }
    E.SumIsMonotone(own, ids, all, ids);
    E.SumIsMonotone(all, ids, own, ids);
  }

  lemma SkipCountsNothing(orders: map<string, Order>, m: string, skip: string)
    requires skip != "" && skip in orders
    ensures RiskSnapshot(orders, m, skip) == E.SentExposure(orders, orders.Keys - {skip}, m)
  {
    SplitSum(Shares(orders, m, skip), orders.Keys, skip);
    SameShares(orders, orders.Keys - {skip}, m, skip);
  }

  /** The gate's snapshot is the number and the open quantity of the other open orders, in all and in the market. */
  lemma SnapshotCountsOthers(orders: map<string, Order>, market: string, own: string)
    ensures Others(orders, own) <= orders.Keys && OthersIn(orders, own, market) <= orders.Keys
    ensures var s := RiskSnapshot(orders, market, own);
            && s.activeGlobal == |Others(orders, own)|
            && s.outstandingGlobal == E.OpenQty(orders, Others(orders, own))
            && s.activeMarket == |OthersIn(orders, own, market)|
            && s.outstandingMarket == E.OpenQty(orders, OthersIn(orders, own, market))
  {
    var ids := orders.Keys - if own == "" then {} else {own};
    SnapshotLeavesOutOwn(orders, ids, market, own);
    E.ExposureCounts(orders, ids, market, RiskSnapshot(orders, market, own));
    OthersAreLive(orders, ids, market, own);
  }

  lemma SnapshotLeavesOutOwn(orders: map<string, Order>, ids: set<string>, m: string, own: string)
    requires ids == orders.Keys - if own == "" then {} else {own}
    ensures RiskSnapshot(orders, m, own) == E.SentExposure(orders, ids, m)
  {
    if own in orders && own != "" {
      SkipCountsNothing(orders, m, own);
    } else {
      assert ids == orders.Keys;
      SameShares(orders, ids, m, own);
    }
  }

  lemma OthersAreLive(orders: map<string, Order>, ids: set<string>, m: string, own: string)
    requires ids == orders.Keys - if own == "" then {} else {own}
    ensures E.Live(orders, ids) == Others(orders, own) && E.LiveIn(orders, ids, m) == OthersIn(orders, own, m)
  {
  }

  // ---------------------------------------------------------------- the verdicts

  predicate Exceeds(limit: int, x: int) {
    limit > 0 && x > limit
  }

  /** The first limit, in this order, that the intent would break; each names its reason. */
  lemma GlobalVerdict(cfg: GlobalRiskConfig, x: Intent, s: GlobalRiskSnapshot)
    ensures var r := EvaluateGlobal(cfg, x, s);
            var asked := if x.qty > 0 then x.qty else 0;
            var orders := Exceeds(cfg.maxActiveGlobal, s.activeGlobal + 1);
            var inMarket := Exceeds(cfg.maxActivePerMarket, s.activeMarket + 1);
            var qty := Exceeds(cfg.maxOutstandingGlobal, s.outstandingGlobal + asked);
            var qtyInMarket := Exceeds(cfg.maxOutstandingPerMarket, s.outstandingMarket + asked);
            if x.action == Place || x.action == Replace then
              if orders then r.Some? && GlobalRejectName(r.value) == "active_orders_global_limit"
              else if inMarket then r.Some? && GlobalRejectName(r.value) == "active_orders_market_limit"
              else if qty then r.Some? && GlobalRejectName(r.value) == "outstanding_qty_global_limit"
              else if qtyInMarket then r.Some? && GlobalRejectName(r.value) == "outstanding_qty_market_limit"
              else r.None?
            else r.None?
  {
  }

  /** The floor comes first, then the intent's own quantity and side, then the net by side, then the gross. */
  lemma PortfolioVerdict(cfg: PortfolioRiskConfig, x: Intent, s: PortfolioRiskSnapshot)
    ensures var r := EvaluatePortfolio(cfg, x, s);
            var net := if Buys(x.side) then s.netMarket + x.qty else s.netMarket - x.qty;
            var gross := s.grossGlobal - Abs(s.netMarket) + Abs(net);
            if x.action == Place || x.action == Replace then
              if cfg.enforcePnlFloor && s.realizedPnl < cfg.minRealizedPnl
              then r.Some? && PortfolioRejectName(r.value) == "realized_pnl_floor"
              else if x.qty <= 0 || !(Buys(x.side) || Sells(x.side))
              then r.Some? && PortfolioRejectName(r.value) == "invalid_intent"
              else if Exceeds(cfg.maxAbsNetPerMarket, Abs(net))
              then r.Some? && PortfolioRejectName(r.value) == "abs_net_position_market_limit"
              else if Exceeds(cfg.maxGrossGlobal, gross)
              then r.Some? && PortfolioRejectName(r.value) == "abs_position_gross_global_limit"
              else r.None?
            else r.None?
  {
  }

  // ---------------------------------------------------------------- what becomes of the order

  /** The intent is given up, its open order is Rejected, and the event sink learns the reason. */
  ghost predicate TurnedDown(s: State, s': State, x: Intent, reason: string) {
    && s'.hand == Empty && s'.local == s.local && s'.queue == s.queue
    && s'.sent == s.sent && s'.sentCount == s.sentCount && s'.sendFailed == s.sendFailed
    && (x.clientId in s.core.orders && StillOpen(s.core.orders[x.clientId].status) ==>
          && s'.core.orders.Keys == s.core.orders.Keys && s'.core.orders[x.clientId].status == InRejected
          && s'.published
             == s.published + [Update(x.exchange, Rejected, x.clientId, None, x.market, RejectData(reason))])
  }

  lemma TurnDownRejects(s: State, gate: Event, reason: string, accepts: bool)
    requires s.hand.Holding? && (gate.GlobalRejection? || gate.PortfolioRejection?)
    ensures TurnedDown(s, TurnDown(s, gate, reason, accepts), s.hand.intent, reason)
  {
    var x := s.hand.intent;
    var c, u := CoreStep(s.core, gate), RejectUpdate(x, reason);
    if x.clientId in c.orders && StillOpen(c.orders[x.clientId].status) {
      assert IsSubject(c, u, x.clientId);
      LiveOrdersCanBeFinished(c, u, x.clientId);
      UpdateIsPassedOn(c, u, x.clientId);
      UpdateWrites(c, u, x.clientId);
    }
  }

  /**
   In every state: the global gate passes the held intent exactly if it creates no exposure or no switched-on limit is
   broken by the other open orders and this one; otherwise the order is turned down for the first limit broken.
   */
  lemma GlobalGateDecides(cfg: Config, s: State, accepts: bool)
    requires s.hand.Holding? && s.hand.phase == Taken
    ensures Others(s.core.orders, s.hand.intent.clientId) <= s.core.orders.Keys
    ensures OthersIn(s.core.orders, s.hand.intent.clientId, s.hand.intent.market) <= s.core.orders.Keys
    ensures var x, g, s' := s.hand.intent, cfg.globalRisk, Step(cfg, s, GlobalGate(accepts));
            var all := Others(s.core.orders, x.clientId);
            var near := OthersIn(s.core.orders, x.clientId, x.market);
            var asked := if x.qty > 0 then x.qty else 0;
            if x.action != Place && x.action != Replace then s' == s.(hand := Holding(x, PassedGlobal))
            else if Exceeds(g.maxActiveGlobal, |all| + 1) then TurnedDown(s, s', x, "active_orders_global_limit")
            else if Exceeds(g.maxActivePerMarket, |near| + 1) then TurnedDown(s, s', x, "active_orders_market_limit")
            else if Exceeds(g.maxOutstandingGlobal, E.OpenQty(s.core.orders, all) + asked)
            then TurnedDown(s, s', x, "outstanding_qty_global_limit")
            else if Exceeds(g.maxOutstandingPerMarket, E.OpenQty(s.core.orders, near) + asked)
            then TurnedDown(s, s', x, "outstanding_qty_market_limit")
            else s' == s.(hand := Holding(x, PassedGlobal))
  {
    var x := s.hand.intent;
    var snapshot := RiskSnapshot(s.core.orders, x.market, x.clientId);
    SnapshotCountsOthers(s.core.orders, x.market, x.clientId);
    GlobalVerdict(cfg.globalRisk, x, snapshot);
    var decision := EvaluateGlobal(cfg.globalRisk, x, snapshot);
    assert decision == GlobalDecision(s.core, cfg.globalRisk, x);
    if decision.Some? {
      TurnDownRejects(s, GlobalRejection, GlobalRejectName(decision.value), accepts);
    }
  }

  /** The portfolio gate, when it has a snapshot to look at, turns an order down with the reason its verdict names. */
  lemma PortfolioGateDecides(cfg: Config, s: State, snapshot: PortfolioRiskSnapshot, accepts: bool)
    requires s.hand.Holding? && s.hand.phase == PassedGlobal && cfg.provided
    ensures var x, s' := s.hand.intent, Step(cfg, s, PortfolioGate(Some(snapshot), accepts));
            var r := EvaluatePortfolio(cfg.portfolioRisk, x, snapshot);
            if r.None? then s' == s.(hand := Holding(x, Cleared))
            else TurnedDown(s, s', x, PortfolioRejectName(r.value))
  {
    var r := EvaluatePortfolio(cfg.portfolioRisk, s.hand.intent, snapshot);
    if r.Some? {
      TurnDownRejects(s, PortfolioRejection, PortfolioRejectName(r.value), accepts);
    }
  }

  // ---------------------------------------------------------------- request ids

  predicate DistinctRequests(orders: map<string, Order>) {
    forall a, b :: a in orders && b in orders && a != b ==> orders[a].requestId != orders[b].requestId
  }

  predicate HandedOut(orders: map<string, Order>, n: nat) {
    forall id :: id in orders ==> 1 <= orders[id].requestId <= n
  }

  lemma EventKeepsRequests(c: Core, e: Event, n: nat)
    requires DistinctRequests(c.orders) && HandedOut(c.orders, n) && (e.Submission? ==> e.requestId == n + 1)
    ensures var c' := CoreStep(c, e);
            DistinctRequests(c'.orders) && HandedOut(c'.orders, if e.Submission? then n + 1 else n)
  {
    if e.Report? && OutcomeOf(c, e.update) == Applied {
      var id := Subject(c, e.update).value;
      assert CoreStep(c, e).orders[id].requestId == c.orders[id].requestId;
    }
  }

  lemma TurnDownKeepsRequests(s: State, gate: Event, reason: string, accepts: bool)
    requires s.hand.Holding? && !gate.Submission? && DistinctRequests(s.core.orders)
    requires HandedOut(s.core.orders, s.requestIds)
    ensures var s' := TurnDown(s, gate, reason, accepts);
            DistinctRequests(s'.core.orders) && HandedOut(s'.core.orders, s'.requestIds)
  {
    EventKeepsRequests(s.core, gate, s.requestIds);
    EventKeepsRequests(CoreStep(s.core, gate), Report(RejectUpdate(s.hand.intent, reason)), s.requestIds);
  }

  lemma StepKeepsRequests(cfg: Config, s: State, a: Action)
    requires DistinctRequests(s.core.orders) && HandedOut(s.core.orders, s.requestIds)
    ensures var s' := Step(cfg, s, a);
            DistinctRequests(s'.core.orders) && HandedOut(s'.core.orders, s'.requestIds)
  {
    match a
    case SubmitTrack(intent) => EventKeepsRequests(s.core, Submission(s.requestIds + 1, intent), s.requestIds);
    case GlobalGate(accepts) =>
      if Enabled(s, a) && GlobalDecision(s.core, cfg.globalRisk, s.hand.intent).Some? {
        var reason := GlobalRejectName(GlobalDecision(s.core, cfg.globalRisk, s.hand.intent).value);
        TurnDownKeepsRequests(s, GlobalRejection, reason, accepts);
      }
    case PortfolioGate(snapshot, accepts) =>
      if Enabled(s, a) && PortfolioDecision(cfg, s.hand.intent, snapshot).Some? {
        var reason := PortfolioRejectName(PortfolioDecision(cfg, s.hand.intent, snapshot).value);
        TurnDownKeepsRequests(s, PortfolioRejection, reason, accepts);
      }
    case Receive(message, _) =>
      if ParseUpdate(message).Some? {
        EventKeepsRequests(s.core, Report(ParseUpdate(message).value), s.requestIds);
      }
    case Notice(update, _) => EventKeepsRequests(s.core, Report(update), s.requestIds);
    case _ =>
  }

  /** In every interleaving no two tracked orders share a request id, and all ids were handed out. */
  lemma {:induction false} RequestIdsAreDistinct(cfg: Config, actions: seq<Action>)
    ensures var s := Run(cfg, START, actions);
            DistinctRequests(s.core.orders) && HandedOut(s.core.orders, s.requestIds)
  {
    if actions != [] {
      RequestIdsAreDistinct(cfg, actions[..|actions| - 1]);
      StepKeepsRequests(cfg, Run(cfg, START, actions[..|actions| - 1]), actions[|actions| - 1]);
    }
  }
}
