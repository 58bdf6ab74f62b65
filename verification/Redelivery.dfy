/**
 A message received twice. The core takes a fill quantity as a running total and accepts a status it already has, so a
 repeat changes nothing there; the ledger takes a fill as an increment, so a repeat is booked again.
 */
module Redelivery {
  import opened MarketTypes
  import opened OmsTypes
  import opened RiskGates
  import opened OrderCore
  import opened OrderCoreProperties
  import opened KalshiAdapter
  import opened OmsMachine
  import OmsExposure
  import opened LedgerModel
  import LedgerProperties
  import opened OrderFills

  // ---------------------------------------------------------------- orders

  lemma RepeatedOrder(o: Order, next: InFlightStatus, u: Update)
    ensures UpdatedOrder(UpdatedOrder(o, next, u), next, u) == UpdatedOrder(o, next, u)
    ensures u.data.FillData? && u.data.fill.side == UnknownSide ==> UpdatedOrder(o, next, u).side == o.side
  {
  }

  lemma RepeatedSubject(c: Core, u: Update)
    requires OutcomeOf(c, u) == Applied && c.orders[Subject(c, u).value].clientId == Subject(c, u).value
    ensures Subject(Apply(c, u).0, u) == Subject(c, u)
  {
  }

  /** In every reachable core an applied update, delivered again, is applied again and leaves orders and index alone. */
  lemma RepeatLeavesOrdersAlone(es: seq<Event>, u: Update)
    requires OutcomeOf(CoreRun(EMPTY_CORE, es), u) == Applied
    ensures var once := Apply(CoreRun(EMPTY_CORE, es), u).0;
            var twice := Apply(once, u).0;
            && OutcomeOf(once, u) == Applied
            && twice.orders == once.orders && twice.byExchange == once.byExchange && twice.applied == once.applied + 1
            && Apply(once, u).1 == Apply(CoreRun(EMPTY_CORE, es), u).1
  {
    var c := CoreRun(EMPTY_CORE, es);
    IndexHoldsLatestReports(es);
    RepeatedSubject(c, u);
    RepeatedOrder(c.orders[Subject(c, u).value], ToInFlight(u.status).value, u);
  }

  // ---------------------------------------------------------------- positions

  /** The ledger after what a state has published. */
  function Book(s: State): Ledger {
    OnUpdates(EMPTY_LEDGER, s.published)
  }

  /** An update leaves the positions alone exactly when it is no bookable fill. */
  lemma PositionsStayIff(l: Ledger, u: Update)
    ensures OnUpdate(l, u).0.positions == l.positions <==> !Fills(u)
  {
    if Fills(u) {
      var k := FillKey(u);
      FillIsCounted(PositionAt(l, k), FillQty(u), FillPrice(u));
      assert k in l.positions ==> OnUpdate(l, u).0.positions[k].fillCount == l.positions[k].fillCount + 1;
      assert k in OnUpdate(l, u).0.positions;
    }
  }

  lemma FillIsCounted(p: Position, q: int, price: int)
    requires q != 0
    ensures FillPosition(p, q, price).fillCount == p.fillCount + 1
  {
  }

  lemma PublishedOnce(s: State, s': State, u: Update, k: Key)
    requires s'.published == s.published + [u]
    ensures Book(s').positions == Book(s).positions <==> !Fills(u)
    ensures PositionAt(Book(s'), k).net == PositionAt(Book(s), k).net + Signed(u, k)
  {
    LedgerProperties.OnUpdatesSnoc(EMPTY_LEDGER, s.published, u);
    PositionsStayIff(Book(s), u);
    UpdateMovesNet(Book(s), u, k);
  }

  // ---------------------------------------------------------------- a message received twice

  lemma ReceiptApplies(cfg: Config, s: State, m: Message, accepts: bool, u: Update)
    requires Idle(s) && ParseUpdate(m) == Some(u) && OutcomeOf(s.core, u) == Applied
    ensures var s' := Step(cfg, s, Receive(m, accepts));
            && s'.core == Apply(s.core, u).0 && s'.published == s.published + [Apply(s.core, u).1] && Idle(s')
            && s'.events == s.events + [Report(u)]
  {
  }

  /** A readable message the core does not apply: the event sink is not told, and orders and index stay. */
  lemma ReceiptRefused(cfg: Config, s: State, m: Message, accepts: bool, u: Update)
    requires Idle(s) && ParseUpdate(m) == Some(u) && OutcomeOf(s.core, u) != Applied
    ensures var s' := Step(cfg, s, Receive(m, accepts));
            && s'.core.orders == s.core.orders && s'.core.byExchange == s.core.byExchange
            && s'.published == s.published && Idle(s') && OutcomeOf(s'.core, u) == OutcomeOf(s.core, u)
  {
  }

  lemma AppliedAgain(cfg: Config, s: State, m: Message, first: bool, second: bool, u: Update, k: Key)
    requires s.core == CoreRun(EMPTY_CORE, s.events) && Idle(s)
    requires ParseUpdate(m) == Some(u) && OutcomeOf(s.core, u) == Applied
    ensures var v := Apply(s.core, u).1;
            var once := Step(cfg, s, Receive(m, first));
            var twice := Step(cfg, once, Receive(m, second));
            && twice.core.orders == once.core.orders && twice.core.byExchange == once.core.byExchange
            && (Book(twice).positions == Book(once).positions <==> !Fills(v))
            && PositionAt(Book(twice), k).net == PositionAt(Book(s), k).net + Signed(v, k) + Signed(v, k)
  {
    RepeatLeavesOrdersAlone(s.events, u);
    var once := Step(cfg, s, Receive(m, first));
    ReceiptApplies(cfg, s, m, first, u);
    ReceiptApplies(cfg, once, m, second, u);
    PublishedOnce(s, once, Apply(s.core, u).1, k);
    PublishedOnce(once, Step(cfg, once, Receive(m, second)), Apply(s.core, u).1, k);
  }

  lemma RefusedAgain(cfg: Config, s: State, m: Message, first: bool, second: bool, u: Update)
    requires Idle(s) && ParseUpdate(m) == Some(u) && OutcomeOf(s.core, u) != Applied
    ensures var once := Step(cfg, s, Receive(m, first));
            var twice := Step(cfg, once, Receive(m, second));
            && twice.core.orders == once.core.orders && twice.core.byExchange == once.core.byExchange
            && twice.published == once.published == s.published
  {
    ReceiptRefused(cfg, s, m, first, u);
    ReceiptRefused(cfg, Step(cfg, s, Receive(m, first)), m, second, u);
  }

  /** What a message, read as `u`, books in a market when it is received. */
  function Books(c: Core, u: Update, k: Key): int {
    if OutcomeOf(c, u) == Applied then Signed(Apply(c, u).1, k) else 0
  }

  /**
   In every run, a readable message received twice in a row: orders and index stay as the first receipt left them, the
   positions stay as it left them if and only if it is not both applied and a bookable fill, and each market's net moves
   by what the message books each time.
   */
  lemma RepeatedMessage(cfg: Config, actions: seq<Action>, m: Message, first: bool, second: bool, u: Update, k: Key)
    requires Idle(Run(cfg, START, actions)) && ParseUpdate(m) == Some(u)
    ensures var s := Run(cfg, START, actions);
            var once := Step(cfg, s, Receive(m, first));
            var twice := Step(cfg, once, Receive(m, second));
            && twice.core.orders == once.core.orders && twice.core.byExchange == once.core.byExchange
            && (Book(twice).positions == Book(once).positions
                <==> !(OutcomeOf(s.core, u) == Applied && Fills(Apply(s.core, u).1)))
            && PositionAt(Book(twice), k).net == PositionAt(Book(s), k).net + Books(s.core, u, k) + Books(s.core, u, k)
  {
    var s := Run(cfg, START, actions);
    CoreFollowsItsEvents(cfg, actions);
    if OutcomeOf(s.core, u) == Applied {
      AppliedAgain(cfg, s, m, first, second, u, k);
    } else {
      RefusedAgain(cfg, s, m, first, second, u);
    }
  }

  // ---------------------------------------------------------------- a fill received again later

  lemma GateSettlesOrders(cfg: Config, s: State, a: Action)
    requires (a.GlobalGate? || a.PortfolioGate?) && Enabled(s, a) && Answers(cfg, a)
    ensures OmsExposure.Settles(s.core.orders, Step(cfg, s, a).core.orders)
  {
    OmsExposure.SettlesItself(s.core.orders);
    if a.GlobalGate? {
      var decision := GlobalDecision(s.core, cfg.globalRisk, s.hand.intent);
      if decision.Some? {
        OmsExposure.TurnDownSettles(s, GlobalRejection, GlobalRejectName(decision.value), a.sinkAccepts);
      }
    } else {
      var decision := PortfolioDecision(cfg, s.hand.intent, a.snapshot);
      if decision.Some? {
        OmsExposure.TurnDownSettles(s, PortfolioRejection, PortfolioRejectName(decision.value), a.sinkAccepts);
      }
    }
  }

  lemma StepSettlesOrders(cfg: Config, s: State, a: Action)
    ensures OmsExposure.Settles(s.core.orders, Step(cfg, s, a).core.orders)
  {
    OmsExposure.SettlesItself(s.core.orders);
    if Enabled(s, a) && Answers(cfg, a) {
      match a
      case SubmitTrack(x) =>
        OmsExposure.EventSettles(s.core, Submission(s.requestIds + 1, x));
      case GlobalGate(_) => GateSettlesOrders(cfg, s, a);
      case PortfolioGate(_, _) => GateSettlesOrders(cfg, s, a);
      case Receive(m, _) =>
        if ParseUpdate(m).Some? {
          OmsExposure.EventSettles(s.core, Report(ParseUpdate(m).value));
        }
      case Notice(u, _) =>
        OmsExposure.EventSettles(s.core, Report(u));
      case _ =>
    }
  }

  lemma {:induction false} EndedStaysEnded(cfg: Config, s: State, actions: seq<Action>, id: string)
    requires id in s.core.orders && IsTerminal(s.core.orders[id].status)
    ensures var orders := Run(cfg, s, actions).core.orders;
            id in orders && orders[id].status == s.core.orders[id].status
  {
    if actions != [] {
      EndedStaysEnded(cfg, s, actions[..|actions| - 1], id);
      StepSettlesOrders(cfg, Run(cfg, s, actions[..|actions| - 1]), actions[|actions| - 1]);
    }
  }

  /**
   However much happens in between: a fill that was applied to the order it names is applied again when its message
   comes again, and the positions stay as they are if and only if it is not bookable then.
   */
  lemma RepeatedFillMuchLater(cfg: Config, s: State, m: Message, first: bool, between: seq<Action>, second: bool,
                              u: Update)
    requires Idle(s) && m.FillMessage? && ParseUpdate(m) == Some(u)
    requires u.clientId in s.core.orders && OutcomeOf(s.core, u) == Applied
    requires Idle(Run(cfg, Step(cfg, s, Receive(m, first)), between))
    ensures var later := Run(cfg, Step(cfg, s, Receive(m, first)), between);
            var again := Step(cfg, later, Receive(m, second));
            && OutcomeOf(later.core, u) == Applied
            && (Book(again).positions == Book(later).positions <==> !Fills(Apply(later.core, u).1))
  {
    ReceiptApplies(cfg, s, m, first, u);
    var once := Step(cfg, s, Receive(m, first));
    EndedStaysEnded(cfg, once, between, u.clientId);
    var later := Run(cfg, once, between);
    ReceiptApplies(cfg, later, m, second, u);
    PublishedOnce(later, Step(cfg, later, Receive(m, second)), Apply(later.core, u).1, Key(Kalshi, ""));
  }
}
