/** The mutable core of the order manager, and the proof that it computes `OrderCore`. */
module OrderManagerCore {
  import opened MarketTypes
  import opened OmsTypes
  import opened RiskGates
  import opened OrderCore

  class CoreState {
    const globalRisk: GlobalRiskConfig
    const portfolioRisk: PortfolioRiskConfig
    var inFlight: map<string, Order>
    var exchangeToClient: map<string, string>
    var riskRejects: nat
    var portfolioRejects: nat
    var transitionsApplied: nat
    var transitionRejects: nat
    var unknownUpdates: nat
    var policyRejects: nat

    function View(): Core
      reads this
    {
      Core(inFlight, exchangeToClient, riskRejects, portfolioRejects, transitionsApplied, transitionRejects,
           unknownUpdates, policyRejects)
    }

    constructor (globalRisk: GlobalRiskConfig, portfolioRisk: PortfolioRiskConfig)
      ensures View() == EMPTY_CORE
      ensures this.globalRisk == globalRisk && this.portfolioRisk == portfolioRisk
    {
      this.globalRisk, this.portfolioRisk := globalRisk, portfolioRisk;
      inFlight, exchangeToClient := map[], map[];
      riskRejects, portfolioRejects, transitionsApplied := 0, 0, 0;
      transitionRejects, unknownUpdates, policyRejects := 0, 0, 0;
    }

    method Reset()
      modifies this
      ensures View() == EMPTY_CORE
    {
      inFlight, exchangeToClient := map[], map[];
      riskRejects, portfolioRejects, transitionsApplied := 0, 0, 0;
      transitionRejects, unknownUpdates, policyRejects := 0, 0, 0;
    }

    method PolicyReject(e: PolicyError) returns (error: Option<PolicyError>)
      modifies this`policyRejects
      ensures View() == old(View()).(policyRejects := old(policyRejects) + 1) && error == Some(e)
    {
      policyRejects := policyRejects + 1;
      error := Some(e);
    }

    method ValidateAndTrackSubmission(requestId: nat, intent: Intent) returns (error: Option<PolicyError>)
      modifies this
      ensures (View(), error) == Track(old(View()), requestId, intent)
    {
      if intent.clientId == "" {
        error := PolicyReject(MissingClientId);
        return;
      }
      if intent.action == Place {
        if intent.clientId in inFlight {
          error := PolicyReject(ReusedClientId);
          return;
        }
        inFlight := inFlight[intent.clientId :=
          Order(requestId, Place, InPending, intent.clientId, None, None, intent.market, intent.side, intent.qty, 0)];
        return None;
      }
      if intent.action != Cancel && intent.action != Replace {
        error := PolicyReject(UnsupportedAction);
        return;
      }
      var targetByClient: Option<string> := None;
      if intent.targetClient.Some? {
        targetByClient := intent.targetClient;
      } else if intent.action == Cancel {
        targetByClient := Some(intent.clientId);
      }
      var targetByExchange: Option<string> := None;
      if intent.targetExchange.Some? {
        if intent.targetExchange.value !in exchangeToClient {
          error := PolicyReject(UnknownExchangeTarget);
          return;
        }
        targetByExchange := Some(exchangeToClient[intent.targetExchange.value]);
      }
      if targetByClient.Some? && targetByExchange.Some? && targetByClient.value != targetByExchange.value {
        error := PolicyReject(TargetsDisagree);
        return;
      }
      var target: string;
      if targetByClient.Some? {
        target := targetByClient.value;
      } else if targetByExchange.Some? {
        target := targetByExchange.value;
      } else {
        error := PolicyReject(NoTarget);
        return;
      }
      error := TrackAgainst(requestId, intent, target);
    }

    /** The second half of the validation, once the target's client id is known. */
    method TrackAgainst(requestId: nat, intent: Intent, target: string) returns (error: Option<PolicyError>)
      requires intent.clientId != "" && (intent.action == Cancel || intent.action == Replace)
      requires Target(View(), intent) == Some(target)
      requires intent.targetExchange.Some? ==> ExchangeTarget(View(), intent) == Some(target)
      modifies this
      ensures (View(), error) == Track(old(View()), requestId, intent)
    {
      if target !in inFlight {
        error := PolicyReject(TargetNotTracked);
        return;
      }
      var replaced := inFlight[target];
      if IsTerminal(replaced.status) {
        error := PolicyReject(TargetTerminal);
        return;
      }
      if intent.action == Replace {
        if target == intent.clientId {
          error := PolicyReject(ReplaceNeedsNewId);
          return;
        }
        if intent.clientId in inFlight {
          error := PolicyReject(ReplaceIdExists);
          return;
        }
        if intent.market != "" && replaced.market != "" && intent.market != replaced.market {
          error := PolicyReject(ReplaceMarketMismatch);
          return;
        }
        inFlight := inFlight[intent.clientId :=
          Order(requestId, Replace, InPending, intent.clientId, None, Some(target),
                if intent.market != "" then intent.market else replaced.market,
                if intent.side != UnknownSide then intent.side else replaced.side,
                if intent.qty > 0 then intent.qty else replaced.requested, 0)];
      }
      return None;
    }

    method ApplyUpdateTransition(received: Update) returns (update: Update, outcome: Outcome)
      modifies this
      ensures (View(), update, outcome) == Apply(old(View()), received)
    {
      update := received;
      var next := ToInFlight(update.status);
      if next.None? {
        transitionRejects := transitionRejects + 1;
        return update, TransitionRejected;
      }
      var id := update.clientId;
      if id !in inFlight && update.exchangeId.Some? && update.exchangeId.value in exchangeToClient {
        id := exchangeToClient[update.exchangeId.value];
      }
      if id !in inFlight {
        unknownUpdates := unknownUpdates + 1;
        return update, UnknownOrder;
      }
      var order := inFlight[id];
      if !CanTransition(order.status, next.value) {
        transitionRejects := transitionRejects + 1;
        return update, TransitionRejected;
      }
      if update.exchangeId.Some? && update.exchangeId.value != "" {
        exchangeToClient := exchangeToClient[update.exchangeId.value := order.clientId];
      }
      order, update := UpdateOrder(order, next.value, update);
      inFlight := inFlight[id := order];
      transitionsApplied := transitionsApplied + 1;
      outcome := Applied;
    }

    /** What an accepted update writes into its order, and the side it takes from it. */
    static method UpdateOrder(o: Order, next: InFlightStatus, received: Update) returns (order: Order, update: Update)
      ensures order == UpdatedOrder(o, next, received) && update == WithSide(o, received)
    {
      order, update := o.(status := next), received;
      if update.market != "" {
        order := order.(market := update.market);
      }
      if update.exchangeId.Some? && update.exchangeId.value != "" {
        order := order.(exchangeId := update.exchangeId);
      }
      if update.data.FillData? {
        var fill := update.data.fill;
        if fill.side == UnknownSide && order.side != UnknownSide {
          fill := fill.(side := order.side);
        }
        if order.side == UnknownSide && fill.side != UnknownSide {
          order := order.(side := fill.side);
        }
        if next == InFilled && order.requested > 0 {
          order := order.(filled := order.requested);
        } else if fill.qty > order.filled {
          order := order.(filled := fill.qty);
        }
        update := update.(data := FillData(fill));
      }
    }

    method EvaluateGlobalRisk(intent: Intent) returns (decision: Option<GlobalReject>)
      modifies this`riskRejects
      ensures decision == GlobalDecision(old(View()), globalRisk, intent)
      ensures View() == old(View()).(riskRejects := old(riskRejects) + if decision.Some? then 1 else 0)
    {
      var snapshot := BuildRiskSnapshot(intent.market, intent.clientId);
      decision := EvaluateGlobal(globalRisk, intent, snapshot);
      if decision.Some? {
        riskRejects := riskRejects + 1;
      }
    }

    method EvaluatePortfolioRisk(intent: Intent, snapshot: PortfolioRiskSnapshot)
      returns (decision: Option<PortfolioReject>)
      modifies this`portfolioRejects
      ensures decision == EvaluatePortfolio(portfolioRisk, intent, snapshot)
      ensures View() == old(View()).(portfolioRejects := old(portfolioRejects) + if decision.Some? then 1 else 0)
    {
      decision := EvaluatePortfolio(portfolioRisk, intent, snapshot);
      if decision.Some? {
        portfolioRejects := portfolioRejects + 1;
      }
    }

    method BuildRiskSnapshot(market: string, skip: string) returns (s: GlobalRiskSnapshot)
      ensures s == RiskSnapshot(inFlight, market, skip)
    {
      s := SumShares(inFlight, market, skip, Shares(inFlight, market, skip));
    }

    static predicate Tracked(orders: map<string, Order>, id: string) {
      id in orders
    }

    // The trigger keeps the shares abstract while they are being summed.
    static ghost predicate AreShares(orders: map<string, Order>, market: string, skip: string,
                                     shares: map<string, GlobalRiskSnapshot>) {
      && shares.Keys == orders.Keys
      && forall id {:trigger Tracked(orders, id)} :: Tracked(orders, id) ==>
          shares[id] == Share(orders, id, market, skip)
    }

    /** One pass over the tracked orders, in whatever order the map yields them. */
    static method SumShares(orders: map<string, Order>, market: string, skip: string,
                            ghost shares: map<string, GlobalRiskSnapshot>)
      returns (s: GlobalRiskSnapshot)
      requires AreShares(orders, market, skip, shares)
      ensures s == Sum(shares, orders.Keys)
    {
      s := GlobalRiskSnapshot(0, 0, 0, 0);
      var todo := orders.Keys;
      while todo != {}
        invariant todo <= orders.Keys
        invariant Plus(s, Sum(shares, todo)) == Sum(shares, orders.Keys)
        decreases |todo|
      {
        var id :| id in todo;
        MoveOver(shares, todo, id, s);
        s := AddOrder(s, orders, id, market, skip, shares);
        todo := todo - {id};
      }
      PlusNothing(shares, s);
    }

    static lemma MoveOver<K>(shares: map<K, GlobalRiskSnapshot>, todo: set<K>, id: K, s: GlobalRiskSnapshot)
      requires id in todo && todo <= shares.Keys
      ensures Plus(s, Sum(shares, todo)) == Plus(Plus(s, shares[id]), Sum(shares, todo - {id}))
    {
      SplitSum(shares, todo, id);
      PlusCommutes(s, shares[id], Sum(shares, todo - {id}));
    }

    static lemma PlusNothing<K>(shares: map<K, GlobalRiskSnapshot>, s: GlobalRiskSnapshot)
      ensures Plus(s, Sum(shares, {})) == s
    {
    }

    static method AddOrder(sum: GlobalRiskSnapshot, orders: map<string, Order>, id: string, market: string,
                           skip: string, ghost shares: map<string, GlobalRiskSnapshot>)
      returns (s: GlobalRiskSnapshot)
      requires id in orders && AreShares(orders, market, skip, shares)
      ensures s == Plus(sum, shares[id])
    {
      assert Tracked(orders, id);
      s := sum;
      if (skip != "" && id == skip) || IsTerminal(orders[id].status) {
        return;
      }
      var open := Outstanding(orders[id]);
      s := s.(activeGlobal := s.activeGlobal + 1, outstandingGlobal := s.outstandingGlobal + open);
      if market != "" && orders[id].market == market {
        s := s.(activeMarket := s.activeMarket + 1, outstandingMarket := s.outstandingMarket + open);
      }
    }
  }
}
