/**
 What an order calls filled, and what the ledger booked for it. The adapter reports every fill message as a complete
 fill, so the first one fills its order whatever its quantity, while the ledger books each quantity as it comes.
 */
module OrderFills {
  import opened MarketTypes
  import opened OmsTypes
  import opened MapTotals
  import opened RiskGates
  import opened OrderCore
  import opened OrderCoreProperties
  import opened KalshiAdapter
  import opened OmsMachine
  import opened LedgerModel
  import LedgerProperties
  import GateProjection

  // ---------------------------------------------------------------- fills of one order

  /** Fills come as complete fills, and nothing else does. */
  predicate WholeFill(e: Event) {
    e.Report? ==> (e.update.data.FillData? <==> e.update.status == Filled)
  }

  predicate WholeFills(es: seq<Event>) {
    forall i :: 0 <= i < |es| ==> WholeFill(es[i])
  }

  predicate Applies(c: Core, e: Event) {
    e.Report? && OutcomeOf(c, e.update) == Applied
  }

  predicate AppliesFill(c: Core, e: Event, id: string) {
    Applies(c, e) && e.update.data.FillData? && Subject(c, e.update) == Some(id)
  }

  /** The updates passed on to the event sink, in order. */
  function Published(es: seq<Event>): seq<Update> {
    if es == [] then []
    else
      var c, e := CoreRun(EMPTY_CORE, es[..|es| - 1]), es[|es| - 1];
      if Applies(c, e) then Published(es[..|es| - 1]) + [Apply(c, e.update).1] else Published(es[..|es| - 1])
  }

  /** The fills applied to one order, as passed on. */
  function FillsOf(es: seq<Event>, id: string): seq<Update> {
    if es == [] then []
    else
      var c, e := CoreRun(EMPTY_CORE, es[..|es| - 1]), es[|es| - 1];
      if AppliesFill(c, e, id) then FillsOf(es[..|es| - 1], id) + [Apply(c, e.update).1]
      else FillsOf(es[..|es| - 1], id)
  }

  lemma {:induction false} UntrackedHasNoFills(es: seq<Event>, id: string)
    requires id !in CoreRun(EMPTY_CORE, es).orders
    ensures FillsOf(es, id) == []
  {
    if es != [] {
      var front, e := es[..|es| - 1], es[|es| - 1];
      if id in CoreRun(EMPTY_CORE, front).orders {
        StepSettles(CoreRun(EMPTY_CORE, front), e, id);
      } else {
        UntrackedHasNoFills(front, id);
      }
    }
  }

  /** An order's filled quantity as its fills so far determine it. */
  predicate AllOrNothing(o: Order, anyFill: bool) {
    && (o.status == InFilled <==> anyFill)
    && (0 < o.requested ==> o.filled == if anyFill then o.requested else 0)
  }

  lemma UpdateIsAllOrNothing(o: Order, u: Update, next: InFlightStatus, anyFill: bool)
    requires AllOrNothing(o, anyFill) && WholeFill(Report(u)) && ToInFlight(u.status) == Some(next)
    requires CanTransition(o.status, next)
    ensures AllOrNothing(UpdatedOrder(o, next, u), anyFill || u.data.FillData?)
  {
  }

  /** With complete fills only: filled is all that was asked for once any fill was applied, and nothing before. */
  lemma {:induction false} FilledIsAllOrNothing(es: seq<Event>, id: string)
    requires WholeFills(es) && id in CoreRun(EMPTY_CORE, es).orders
    ensures AllOrNothing(CoreRun(EMPTY_CORE, es).orders[id], FillsOf(es, id) != [])
  {
    if es != [] {
      var front, e := es[..|es| - 1], es[|es| - 1];
      var c := CoreRun(EMPTY_CORE, front);
      if id !in c.orders {
        UntrackedHasNoFills(front, id);
      } else {
        FilledIsAllOrNothing(front, id);
        if Applies(c, e) && Subject(c, e.update) == Some(id) {
          UpdateIsAllOrNothing(c.orders[id], e.update, ToInFlight(e.update.status).value, FillsOf(front, id) != []);
        }
      }
    }
  }

  // ---------------------------------------------------------------- in every interleaving

  lemma MoreWholeFills(es: seq<Event>, e: Event)
    requires WholeFills(es) && WholeFill(e)
    ensures WholeFills(es + [e])
  {
  }

  lemma TurnDownHasWholeFills(s: State, gate: Event, reason: string, accepts: bool)
    requires WholeFills(s.events) && s.hand.Holding? && !gate.Report?
    ensures WholeFills(TurnDown(s, gate, reason, accepts).events)
  {
    MoreWholeFills(s.events, gate);
    MoreWholeFills(s.events + [gate], Report(RejectUpdate(s.hand.intent, reason)));
  }

  /** What the adapter reports as a fill is a complete fill, and gates report none. */
  lemma StepHasWholeFills(cfg: Config, s: State, a: Action)
    requires WholeFills(s.events) && !a.Notice?
    ensures WholeFills(Step(cfg, s, a).events)
  {
    if Enabled(s, a) && Answers(cfg, a) {
      match a
      case SubmitTrack(x) =>
        MoreWholeFills(s.events, Submission(s.requestIds + 1, x));
      case GlobalGate(accepts) =>
        var decision := GlobalDecision(s.core, cfg.globalRisk, s.hand.intent);
        if decision.Some? {
          TurnDownHasWholeFills(s, GlobalRejection, GlobalRejectName(decision.value), accepts);
        }
      case PortfolioGate(snapshot, accepts) =>
        var decision := PortfolioDecision(cfg, s.hand.intent, snapshot);
        if decision.Some? {
          TurnDownHasWholeFills(s, PortfolioRejection, PortfolioRejectName(decision.value), accepts);
        }
      case Receive(m, _) =>
        if ParseUpdate(m).Some? {
          MoreWholeFills(s.events, Report(ParseUpdate(m).value));
        }
      case _ =>
    }
  }

  lemma {:induction false} RunHasWholeFills(cfg: Config, actions: seq<Action>)
    requires FromAdapter(actions)
    ensures WholeFills(Run(cfg, START, actions).events)
  {
    if actions != [] {
      RunHasWholeFills(cfg, actions[..|actions| - 1]);
      StepHasWholeFills(cfg, Run(cfg, START, actions[..|actions| - 1]), actions[|actions| - 1]);
    }
  }

  lemma PublishedGrows(es: seq<Event>, e: Event)
    ensures var c := CoreRun(EMPTY_CORE, es);
            Published(es + [e]) == if Applies(c, e) then Published(es) + [Apply(c, e.update).1] else Published(es)
  {
    assert (es + [e])[..|es|] == es;
  }

  lemma {:induction false} RunPublishes(cfg: Config, actions: seq<Action>)
    ensures Run(cfg, START, actions).published == Published(Run(cfg, START, actions).events)
  {
    if actions != [] {
      var front, a := actions[..|actions| - 1], actions[|actions| - 1];
      RunPublishes(cfg, front);
      CoreFollowsItsEvents(cfg, front);
      StepPublishes(cfg, Run(cfg, START, front), a);
    }
  }

  ghost predicate PublishesItsEvents(s: State) {
    s.core == CoreRun(EMPTY_CORE, s.events) && s.published == Published(s.events)
  }

  lemma DeliveryPublishes(s: State, u: Update, accepts: bool)
    requires PublishesItsEvents(s)
    ensures var s' := Deliver(s, u, accepts); s'.published == Published(s'.events)
  {
    PublishedGrows(s.events, Report(u));
  }

  lemma OtherEventPublishesNothing(s: State, e: Event)
    requires PublishesItsEvents(s) && !e.Report?
    ensures PublishesItsEvents(Happens(s, e))
  {
    PublishedGrows(s.events, e);
    HappensFollows(s, e);
  }

  lemma TurnDownPublishes(s: State, gate: Event, reason: string, accepts: bool)
    requires PublishesItsEvents(s) && s.hand.Holding? && !gate.Report?
    ensures var s' := TurnDown(s, gate, reason, accepts); s'.published == Published(s'.events)
  {
    OtherEventPublishesNothing(s, gate);
    DeliveryPublishes(Happens(s, gate).(hand := Empty), RejectUpdate(s.hand.intent, reason), accepts);
  }

  lemma GlobalGatePublishes(cfg: Config, s: State, accepts: bool)
    requires PublishesItsEvents(s) && Enabled(s, GlobalGate(accepts))
    ensures var s' := Step(cfg, s, GlobalGate(accepts)); s'.published == Published(s'.events)
  {
    var decision := GlobalDecision(s.core, cfg.globalRisk, s.hand.intent);
    if decision.Some? {
      TurnDownPublishes(s, GlobalRejection, GlobalRejectName(decision.value), accepts);
    }
  }

  lemma PortfolioGatePublishes(cfg: Config, s: State, a: Action)
    requires PublishesItsEvents(s) && a.PortfolioGate? && Enabled(s, a)
    ensures var s' := Step(cfg, s, a); s'.published == Published(s'.events)
  {
    var decision := PortfolioDecision(cfg, s.hand.intent, a.snapshot);
    if decision.Some? {
      TurnDownPublishes(s, PortfolioRejection, PortfolioRejectName(decision.value), a.sinkAccepts);
    }
  }

  lemma ReceiptPublishes(cfg: Config, s: State, a: Action)
    requires PublishesItsEvents(s) && (a.Receive? || a.Notice?) && Enabled(s, a)
    ensures var s' := Step(cfg, s, a); s'.published == Published(s'.events)
  {
    var s1 := s.(received := s.received + 1);
    if a.Notice? {
      DeliveryPublishes(s1, a.update, a.sinkAccepts);
    } else if ParseUpdate(a.message).Some? {
      DeliveryPublishes(s1, ParseUpdate(a.message).value, a.sinkAccepts);
    }
  }

  lemma SubmitPublishes(cfg: Config, s: State, x: Intent)
    requires PublishesItsEvents(s)
    ensures var s' := Step(cfg, s, SubmitTrack(x)); s'.published == Published(s'.events)
  {
    OtherEventPublishesNothing(s, Submission(s.requestIds + 1, x));
  }

  lemma StepPublishes(cfg: Config, s: State, a: Action)
    requires PublishesItsEvents(s)
    ensures var s' := Step(cfg, s, a); s'.published == Published(s'.events)
  {
    if Enabled(s, a) {
      match a
      case SubmitTrack(x) => SubmitPublishes(cfg, s, x);
      case GlobalGate(accepts) => GlobalGatePublishes(cfg, s, accepts);
      case PortfolioGate(_, _) => PortfolioGatePublishes(cfg, s, a);
      case Receive(_, _) => ReceiptPublishes(cfg, s, a);
      case Notice(_, _) => ReceiptPublishes(cfg, s, a);
      case _ =>
    }
  }

  // ---------------------------------------------------------------- filled against booked

  /** What the ledger books for some updates, over all markets. */
  function BookedQty(us: seq<Update>): nat {
    if us == [] then 0
    else BookedQty(us[..|us| - 1]) + if Fills(us[|us| - 1]) then us[|us| - 1].data.fill.qty else 0
  }

  /**
   In every interleaving an order is filled for all it asked as soon as one fill was applied to it, and for nothing
   before.
   */
  lemma OrdersFillAllOrNothing(cfg: Config, actions: seq<Action>, id: string)
    requires FromAdapter(actions) && id in Run(cfg, START, actions).core.orders
    ensures var s := Run(cfg, START, actions);
            AllOrNothing(s.core.orders[id], FillsOf(s.events, id) != [])
  {
    CoreFollowsItsEvents(cfg, actions);
    RunHasWholeFills(cfg, actions);
    FilledIsAllOrNothing(Run(cfg, START, actions).events, id);
  }

  /**
   In every interleaving an order that asked for something agrees with what the ledger booked for it if and only if
   the fills applied to it total what it asked for, or there are none.
   */
  lemma OrderAgreesWithLedgerIff(cfg: Config, actions: seq<Action>, id: string)
    requires FromAdapter(actions) && id in Run(cfg, START, actions).core.orders
    requires 0 < Run(cfg, START, actions).core.orders[id].requested
    ensures var s := Run(cfg, START, actions);
            var o, fills := s.core.orders[id], FillsOf(s.events, id);
            o.filled == BookedQty(fills) <==> fills == [] || BookedQty(fills) == o.requested
  {
    OrdersFillAllOrNothing(cfg, actions, id);
  }

  // ---------------------------------------------------------------- the ledger is the sum over the orders

  /** Signed quantity that some updates book in one market. */
  function SignedIn(us: seq<Update>, k: Key): int {
    if us == [] then 0 else SignedIn(us[..|us| - 1], k) + Signed(us[|us| - 1], k)
  }

  function Signed(u: Update, k: Key): int {
    if Fills(u) && FillKey(u) == k then FillQty(u) else 0
  }

  /** What each order's fills booked in one market. */
  ghost function SignedByOrder(es: seq<Event>, k: Key): map<string, int> {
    map id | id in CoreRun(EMPTY_CORE, es).orders :: SignedIn(FillsOf(es, id), k)
  }

  lemma SignedSnoc(us: seq<Update>, u: Update, k: Key)
    ensures SignedIn(us + [u], k) == SignedIn(us, k) + Signed(u, k)
  {
    assert (us + [u])[..|us|] == us;
  }

  lemma {:induction false} PublishedNet(us: seq<Update>, k: Key)
    ensures PositionAt(OnUpdates(EMPTY_LEDGER, us), k).net == SignedIn(us, k)
  {
    if us != [] {
      var front, u := us[..|us| - 1], us[|us| - 1];
      PublishedNet(front, k);
      assert us == front + [u];
      LedgerProperties.OnUpdatesSnoc(EMPTY_LEDGER, front, u);
      UpdateMovesNet(OnUpdates(EMPTY_LEDGER, front), u, k);
    }
  }

  lemma UpdateMovesNet(l: Ledger, u: Update, k: Key)
    ensures PositionAt(OnUpdate(l, u).0, k).net == PositionAt(l, k).net + Signed(u, k)
  {
    if Fills(u) && FillKey(u) == k {
      GateProjection.UpdateMoves(l, u, k);
    }
  }

  /** One event changes what one order's fills booked, by what it publishes. */
  lemma EventMovesOne(es: seq<Event>, e: Event, k: Key)
    ensures Total(SignedByOrder(es + [e], k)) - Total(SignedByOrder(es, k))
            == SignedIn(Published(es + [e]), k) - SignedIn(Published(es), k)
  {
    var c := CoreRun(EMPTY_CORE, es);
    assert (es + [e])[..|es|] == es;
    if Applies(c, e) {
      ReportMovesOne(es, e, k);
    } else if Inserts(c, e) {
      InsertionMovesNothing(es, e, k);
    } else {
      assert SignedByOrder(es + [e], k) == SignedByOrder(es, k);
    }
  }

  lemma InsertionMovesNothing(es: seq<Event>, e: Event, k: Key)
    requires Inserts(CoreRun(EMPTY_CORE, es), e)
    ensures Total(SignedByOrder(es + [e], k)) == Total(SignedByOrder(es, k))
  {
    var id := e.intent.clientId;
    InsertedOrders(es, e);
    UntrackedHasNoFills(es, id);
    forall other ensures FillsOf(es + [e], other) == FillsOf(es, other) {
      FillsAfterInsertion(es, e, other);
    }
    NewEntryMovesNothing(es, es + [e], k, id);
  }

  lemma InsertedOrders(es: seq<Event>, e: Event)
    requires Inserts(CoreRun(EMPTY_CORE, es), e)
    ensures e.intent.clientId !in CoreRun(EMPTY_CORE, es).orders
    ensures CoreRun(EMPTY_CORE, es + [e]).orders.Keys == CoreRun(EMPTY_CORE, es).orders.Keys + {e.intent.clientId}
  {
    assert (es + [e])[..|es|] == es;
  }

  lemma FillsAfterInsertion(es: seq<Event>, e: Event, id: string)
    requires e.Submission?
    ensures FillsOf(es + [e], id) == FillsOf(es, id)
  {
    assert (es + [e])[..|es|] == es;
  }

  lemma NewEntryMovesNothing(es: seq<Event>, es': seq<Event>, k: Key, id: string)
    requires CoreRun(EMPTY_CORE, es').orders.Keys == CoreRun(EMPTY_CORE, es).orders.Keys + {id}
    requires id !in CoreRun(EMPTY_CORE, es).orders && FillsOf(es', id) == []
    requires forall other :: FillsOf(es', other) == FillsOf(es, other)
    ensures Total(SignedByOrder(es', k)) == Total(SignedByOrder(es, k))
  {
    var w, w' := SignedByOrder(es, k), SignedByOrder(es', k);
    forall other | other in w ensures w'[other] == w[other] {
    }
    NewEntry(w, w', id);
  }

  lemma NewEntry(w: map<string, int>, w': map<string, int>, id: string)
    requires w'.Keys == w.Keys + {id} && id !in w && w'[id] == 0 && forall other :: other in w ==> w'[other] == w[other]
    ensures Total(w') == Total(w)
  {
    assert w' == w[id := 0];
    TotalUpdate(w, id, 0);
  }

  lemma ReportMovesOne(es: seq<Event>, e: Event, k: Key)
    requires Applies(CoreRun(EMPTY_CORE, es), e)
    ensures Total(SignedByOrder(es + [e], k)) - Total(SignedByOrder(es, k))
            == SignedIn(Published(es + [e]), k) - SignedIn(Published(es), k)
  {
    var c := CoreRun(EMPTY_CORE, es);
    var id, u := Subject(c, e.update).value, Apply(c, e.update).1;
    PublishedMoves(es, e, k, u);
    OrdersMove(es, e, k, id, u);
  }

  lemma PublishedMoves(es: seq<Event>, e: Event, k: Key, u: Update)
    requires Applies(CoreRun(EMPTY_CORE, es), e) && u == Apply(CoreRun(EMPTY_CORE, es), e.update).1
    ensures SignedIn(Published(es + [e]), k) == SignedIn(Published(es), k) + Signed(u, k)
  {
    PublishedGrows(es, e);
    SignedSnoc(Published(es), u, k);
  }

  lemma OrdersMove(es: seq<Event>, e: Event, k: Key, id: string, u: Update)
    requires Applies(CoreRun(EMPTY_CORE, es), e) && Subject(CoreRun(EMPTY_CORE, es), e.update) == Some(id)
    requires u == Apply(CoreRun(EMPTY_CORE, es), e.update).1
    ensures Total(SignedByOrder(es + [e], k)) == Total(SignedByOrder(es, k)) + Signed(u, k)
  {
    OrdersAfterReport(es, e);
    forall other
      ensures SignedIn(FillsOf(es + [e], other), k)
              == SignedIn(FillsOf(es, other), k) + if other == id then Signed(u, k) else 0
    {
      EntryAfterReport(es, e, k, id, u, other);
    }
    OneEntryMoves(es, es + [e], k, id, Signed(u, k));
  }

  lemma OneEntryMoves(es: seq<Event>, es': seq<Event>, k: Key, id: string, d: int)
    requires CoreRun(EMPTY_CORE, es').orders.Keys == CoreRun(EMPTY_CORE, es).orders.Keys
    requires id in CoreRun(EMPTY_CORE, es).orders
    requires forall other ::
      SignedIn(FillsOf(es', other), k) == SignedIn(FillsOf(es, other), k) + if other == id then d else 0
    ensures Total(SignedByOrder(es', k)) == Total(SignedByOrder(es, k)) + d
  {
    var w, w' := SignedByOrder(es, k), SignedByOrder(es', k);
    forall other | other in w ensures w'[other] == w[other] + if other == id then d else 0 {
    }
    EntryMoves(w, w', id, d);
  }

  lemma EntryMoves(w: map<string, int>, w': map<string, int>, id: string, d: int)
    requires w'.Keys == w.Keys && id in w
    requires forall other :: other in w ==> w'[other] == w[other] + if other == id then d else 0
    ensures Total(w') == Total(w) + d
  {
    var updated := w[id := w[id] + d];
    assert w'.Keys == updated.Keys;
    forall other | other in w' ensures w'[other] == updated[other] {
    }
    assert w' == updated;
    TotalUpdate(w, id, w[id] + d);
  }

  lemma FillsAfterReport(es: seq<Event>, e: Event, id: string, u: Update, other: string)
    requires Applies(CoreRun(EMPTY_CORE, es), e) && Subject(CoreRun(EMPTY_CORE, es), e.update) == Some(id)
    requires u == Apply(CoreRun(EMPTY_CORE, es), e.update).1
    ensures FillsOf(es + [e], other)
            == if other == id && u.data.FillData? then FillsOf(es, other) + [u] else FillsOf(es, other)
  {
    assert (es + [e])[..|es|] == es;
  }

  lemma OrdersAfterReport(es: seq<Event>, e: Event)
    requires Applies(CoreRun(EMPTY_CORE, es), e)
    ensures CoreRun(EMPTY_CORE, es + [e]).orders.Keys == CoreRun(EMPTY_CORE, es).orders.Keys
  {
    assert (es + [e])[..|es|] == es;
  }

  lemma EntryAfterReport(es: seq<Event>, e: Event, k: Key, id: string, u: Update, other: string)
    requires Applies(CoreRun(EMPTY_CORE, es), e) && Subject(CoreRun(EMPTY_CORE, es), e.update) == Some(id)
    requires u == Apply(CoreRun(EMPTY_CORE, es), e.update).1
    ensures SignedIn(FillsOf(es + [e], other), k)
            == SignedIn(FillsOf(es, other), k) + if other == id then Signed(u, k) else 0
  {
    FillsAfterReport(es, e, id, u, other);
    SignedSnoc(FillsOf(es, id), u, k);
  }

  lemma {:induction false} PublishedIsSumOverOrders(es: seq<Event>, k: Key)
    ensures SignedIn(Published(es), k) == Total(SignedByOrder(es, k))
  {
    if es == [] {
      assert SignedByOrder(es, k) == map[];
    } else {
      var front, e := es[..|es| - 1], es[|es| - 1];
      PublishedIsSumOverOrders(front, k);
      assert front + [e] == es;
      EventMovesOne(front, e, k);
    }
  }

  /** In every interleaving a market's net in the ledger is the sum, over the orders, of the fills applied to each. */
  lemma LedgerIsSumOverOrders(cfg: Config, actions: seq<Action>, k: Key)
    ensures var s := Run(cfg, START, actions);
            PositionAt(OnUpdates(EMPTY_LEDGER, s.published), k).net == Total(SignedByOrder(s.events, k))
  {
    var s := Run(cfg, START, actions);
    RunPublishes(cfg, actions);
    PublishedNet(s.published, k);
    PublishedIsSumOverOrders(s.events, k);
  }

  // ---------------------------------------------------------------- a fill of 3 on an order for 10

  /** One fill on an order without fills: the order takes it for all it asked, the ledger for its quantity. */
  lemma OneFillIsTakenWhole(cfg: Config, s: State, m: Message, accepts: bool, u: Update)
    requires PublishesItsEvents(s) && Idle(s) && m.FillMessage? && ParseUpdate(m) == Some(u) && Fills(u)
    requires u.clientId in s.core.orders && !IsTerminal(s.core.orders[u.clientId].status)
    requires 0 < s.core.orders[u.clientId].requested && FillsOf(s.events, u.clientId) == []
    ensures var s' := Step(cfg, s, Receive(m, accepts));
            var o, fills := s'.core.orders[u.clientId], FillsOf(s'.events, u.clientId);
            && o.filled == o.requested == s.core.orders[u.clientId].requested
            && BookedQty(fills) == u.data.fill.qty && s'.published == s.published + [u]
  {
    FillApplies(s.core, u);
    OneFillIsBooked(s.events, u);
  }

  lemma FillApplies(c: Core, u: Update)
    requires Fills(u) && u.status == Filled && u.clientId in c.orders
    requires !IsTerminal(c.orders[u.clientId].status) && 0 < c.orders[u.clientId].requested
    ensures var (c', u', outcome) := Apply(c, u);
            && outcome == OutcomeOf(c, u) == Applied && u' == u && Subject(c, u) == Some(u.clientId)
            && c'.orders[u.clientId].filled == c'.orders[u.clientId].requested == c.orders[u.clientId].requested
  {
  }

  lemma OneFillIsBooked(es: seq<Event>, u: Update)
    requires Applies(CoreRun(EMPTY_CORE, es), Report(u)) && Subject(CoreRun(EMPTY_CORE, es), u) == Some(u.clientId)
    requires u == Apply(CoreRun(EMPTY_CORE, es), u).1 && Fills(u) && FillsOf(es, u.clientId) == []
    ensures BookedQty(FillsOf(es + [Report(u)], u.clientId)) == u.data.fill.qty
  {
    FillsAfterReport(es, Report(u), u.clientId, u, u.clientId);
    assert [u][..0] == [];
  }

  const TEN := Intent(Kalshi, Place, "a", None, None, "M", Buy, 10, Some(1))
  const THREE := FillMessage(Some("a"), None, Some("M"), Some(3), Some(1), Some("buy"))
  const THREE_READ := Update(Kalshi, Filled, "a", None, "M", FillData(Fill("M", 3, 1, Buy)))

  lemma TrackTen(cfg: Config) returns (s: State)
    ensures s == Step(cfg, START, SubmitTrack(TEN)) && PublishesItsEvents(s) && Idle(s) && s.published == []
    ensures "a" in s.core.orders && s.core.orders["a"].status == InPending && s.core.orders["a"].requested == 10
    ensures FillsOf(s.events, "a") == []
  {
    s := Step(cfg, START, SubmitTrack(TEN));
    StepFollowsEvents(cfg, START, SubmitTrack(TEN));
    assert s.events == [Submission(1, TEN)];
    UntrackedHasNoFills([], "a");
  }

  lemma ReadThree()
    ensures ParseUpdate(THREE) == Some(THREE_READ)
  {
    SideNameRoundTrip(Buy);
  }

  lemma ShortFillState(cfg: Config, s1: State) returns (s: State)
    requires PublishesItsEvents(s1) && Idle(s1) && s1.published == []
    requires "a" in s1.core.orders && s1.core.orders["a"].status == InPending && s1.core.orders["a"].requested == 10
    requires FillsOf(s1.events, "a") == []
    ensures s == Step(cfg, s1, Receive(THREE, true)) && s.published == [THREE_READ] && "a" in s.core.orders
    ensures s.core.orders["a"].filled == s.core.orders["a"].requested == 10 && BookedQty(FillsOf(s.events, "a")) == 3
  {
    ReadThree();
    OneFillIsTakenWhole(cfg, s1, THREE, true, THREE_READ);
    s := Step(cfg, s1, Receive(THREE, true));
    assert [] + [THREE_READ] == [THREE_READ];
  }

  /** An order for 10 and one fill of 3: the order is filled for 10, the ledger holds 3. */
  lemma ShortFillDisagrees(cfg: Config) returns (actions: seq<Action>)
    ensures FromAdapter(actions)
    ensures var s := Run(cfg, START, actions);
            && "a" in s.core.orders && s.core.orders["a"].filled == s.core.orders["a"].requested == 10
            && BookedQty(FillsOf(s.events, "a")) == 3
            && PositionAt(OnUpdates(EMPTY_LEDGER, s.published), Key(Kalshi, "M")).net == 3
  {
    var s1 := TrackTen(cfg);
    var s := ShortFillState(cfg, s1);
    PublishedNet(s.published, Key(Kalshi, "M"));
    actions := [];
    RunSnoc(cfg, START, actions, SubmitTrack(TEN));
    actions := actions + [SubmitTrack(TEN)];
    RunSnoc(cfg, START, actions, Receive(THREE, true));
    actions := actions + [Receive(THREE, true)];
  }
}
