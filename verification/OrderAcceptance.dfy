/**
 Which submissions the order manager accepts, which updates it applies, and what each leaves behind. The statements name
 fields, statuses and ids, and none of the checks the core is made of; they hold in every core, reachable or not.
 */
module OrderAcceptance {
  import opened MarketTypes
  import opened OmsTypes
  import opened RiskGates
  import opened OrderCore
  import opened OrderCoreProperties
  import opened LedgerModel
  import opened LedgerSides

  // ---------------------------------------------------------------- submissions

  predicate StillOpen(status: InFlightStatus) {
    status == InPending || status == InAccepted || status == InPartiallyFilled || status == InReplaced
  }

  /** Every way in which the intent names its target leads to `t`. A cancel that names no client id means its own. */
  predicate IsTarget(c: Core, x: Intent, t: string) {
    && (x.targetClient.Some? ==> x.targetClient.value == t)
    && (x.targetExchange.Some? ==>
          x.targetExchange.value in c.byExchange && c.byExchange[x.targetExchange.value] == t)
    && (x.targetClient.None? && x.action == Cancel ==> x.clientId == t)
    && (x.targetClient.None? && x.targetExchange.None? ==> x.action == Cancel)
  }

  predicate IsOpen(c: Core, t: string) {
    t in c.orders && StillOpen(c.orders[t].status)
  }

  predicate SameMarket(a: string, b: string) {
    a == "" || b == "" || a == b
  }

  ghost predicate Acceptable(c: Core, x: Intent) {
    x.clientId != "" &&
    match x.action
    case Place => x.clientId !in c.orders
    case Cancel => exists t :: IsTarget(c, x, t) && IsOpen(c, t)
    case Replace =>
      x.clientId !in c.orders
      && exists t :: IsTarget(c, x, t) && IsOpen(c, t) && SameMarket(x.market, c.orders[t].market)
    case UnknownAction => false
  }

  lemma TargetMeans(c: Core, x: Intent, t: string)
    requires (x.action == Cancel || x.action == Replace) && IsTarget(c, x, t)
    ensures Target(c, x) == Some(t) && (x.targetExchange.Some? ==> ExchangeTarget(c, x) == Some(t))
  {
  }

  lemma AcceptedHasTarget(c: Core, x: Intent) returns (t: string)
    requires (x.action == Cancel || x.action == Replace) && PolicyCheck(c, x).None?
    ensures IsTarget(c, x, t) && IsOpen(c, t) && Target(c, x) == Some(t)
  {
    t := Target(c, x).value;
  }

  /** A submission is accepted if and only if it is acceptable, on every core. */
  lemma SubmissionAcceptedIff(c: Core, requestId: nat, x: Intent)
    ensures Track(c, requestId, x).1.None? <==> Acceptable(c, x)
  {
    if x.action == Cancel || x.action == Replace {
      if PolicyCheck(c, x).None? {
        var t := AcceptedHasTarget(c, x);
      }
      if Acceptable(c, x) {
        var t :| IsTarget(c, x, t) && IsOpen(c, t)
                 && (x.action == Replace ==> SameMarket(x.market, c.orders[t].market));
        TargetMeans(c, x, t);
      }
    }
  }

  /** A refused submission only counts; an accepted cancel changes nothing; a place or replace adds one order. */
  lemma SubmissionAdds(c: Core, requestId: nat, x: Intent)
    ensures var (c', error) := Track(c, requestId, x);
            && (error.Some? ==> c' == c.(policyRejects := c.policyRejects + 1))
            && (error.None? && x.action == Cancel ==> c' == c)
            && (error.None? && x.action == Place ==>
                  && c' == c.(orders := c'.orders)
                  && c'.orders == c.orders[x.clientId := Order(requestId, Place, InPending, x.clientId, None, None,
                                                                x.market, x.side, x.qty, 0)])
            && (error.None? && x.action == Replace ==>
                  c' == c.(orders := c'.orders) && x.clientId in c'.orders
                  && c'.orders == c.orders[x.clientId := c'.orders[x.clientId]])
  {
  }

  /** A new replace points at its target and inherits the market, the side and the quantity it does not say. */
  lemma ReplaceInherits(c: Core, requestId: nat, x: Intent, t: string)
    requires x.action == Replace && Track(c, requestId, x).1.None? && IsTarget(c, x, t)
    ensures t in c.orders && x.clientId in Track(c, requestId, x).0.orders
    ensures var o, was := Track(c, requestId, x).0.orders[x.clientId], c.orders[t];
            && o.requestId == requestId && o.action == Replace && o.status == InPending && o.clientId == x.clientId
            && o.exchangeId == None && o.replacing == Some(t) && o.filled == 0
            && (x.market != "" ==> o.market == x.market) && (x.market == "" ==> o.market == was.market)
            && (x.side != UnknownSide ==> o.side == x.side) && (x.side == UnknownSide ==> o.side == was.side)
            && (0 < x.qty ==> o.requested == x.qty) && (x.qty <= 0 ==> o.requested == was.requested)
  {
    TargetMeans(c, x, t);
  }

  /** The error names what is wrong with the submission. */
  ghost predicate Explains(c: Core, x: Intent, error: PolicyError) {
    match error
    case MissingClientId => x.clientId == ""
    case ReusedClientId => x.action == Place && x.clientId in c.orders
    case UnsupportedAction => x.action == UnknownAction
    case UnknownExchangeTarget => x.targetExchange.Some? && x.targetExchange.value !in c.byExchange
    case TargetsDisagree =>
      && (x.targetClient.Some? || x.action == Cancel)
      && x.targetExchange.Some? && x.targetExchange.value in c.byExchange
      && c.byExchange[x.targetExchange.value] != if x.targetClient.Some? then x.targetClient.value else x.clientId
    case NoTarget => x.action == Replace && x.targetClient.None? && x.targetExchange.None?
    case TargetNotTracked => exists t :: IsTarget(c, x, t) && t !in c.orders
    case TargetTerminal => exists t :: IsTarget(c, x, t) && t in c.orders && !StillOpen(c.orders[t].status)
    case ReplaceNeedsNewId => x.action == Replace && IsTarget(c, x, x.clientId)
    case ReplaceIdExists => x.action == Replace && x.clientId in c.orders && !IsTarget(c, x, x.clientId)
    case ReplaceMarketMismatch =>
      x.action == Replace && exists t :: IsTarget(c, x, t) && t in c.orders && !SameMarket(x.market, c.orders[t].market)
  }

  lemma RefusalIsExplained(c: Core, requestId: nat, x: Intent)
    requires Track(c, requestId, x).1.Some?
    ensures Explains(c, x, Track(c, requestId, x).1.value)
  {
    var error := Track(c, requestId, x).1.value;
    if Target(c, x).Some? && (x.action == Cancel || x.action == Replace)
       && !error.MissingClientId? && !error.UnknownExchangeTarget? && !error.TargetsDisagree? {
      assert IsTarget(c, x, Target(c, x).value);
      if IsTarget(c, x, x.clientId) {
        TargetMeans(c, x, x.clientId);
      }
    }
  }

  // ---------------------------------------------------------------- updates

  /** The order an update is for: the one with its client id or, if none has it, the one filed under its exchange id. */
  predicate IsSubject(c: Core, u: Update, id: string) {
    && id in c.orders
    && (id == u.clientId
        || (u.clientId !in c.orders && u.exchangeId.Some? && u.exchangeId.value in c.byExchange
            && c.byExchange[u.exchangeId.value] == id))
  }

  /** The moves between statuses. A live order can always be finished; a finished one only stays as it is. */
  predicate MayMove(current: InFlightStatus, reported: OmsStatus) {
    match reported
    case Filled => StillOpen(current) || current == InFilled
    case Canceled => StillOpen(current) || current == InCanceled
    case Rejected => StillOpen(current) || current == InRejected
    case Accepted => current == InPending || current == InReplaced || current == InAccepted
    case PartiallyFilled => StillOpen(current)
    case Replaced => current == InAccepted || current == InPartiallyFilled || current == InReplaced
    case UnknownStatus => false
  }

  predicate HasStatus(status: InFlightStatus, reported: OmsStatus) {
    match reported
    case Filled => status == InFilled
    case Canceled => status == InCanceled
    case Rejected => status == InRejected
    case Accepted => status == InAccepted
    case PartiallyFilled => status == InPartiallyFilled
    case Replaced => status == InReplaced
    case UnknownStatus => false
  }

  lemma MoveMeans(current: InFlightStatus, reported: OmsStatus)
    ensures MayMove(current, reported) <==>
            ToInFlight(reported).Some? && CanTransition(current, ToInFlight(reported).value)
    ensures ToInFlight(reported).Some? ==> HasStatus(ToInFlight(reported).value, reported)
  {
  }

  lemma SubjectMeans(c: Core, u: Update, id: string)
    ensures IsSubject(c, u, id) <==> Subject(c, u) == Some(id)
  {
  }

  /**
   An update is applied if and only if it is for a tracked order and its status is a move from that order's. Otherwise
   the order is unknown, or the move is refused, and only that is counted.
   */
  lemma UpdateAppliedIff(c: Core, u: Update)
    ensures var (c', u', outcome) := Apply(c, u);
            && (outcome == Applied <==> exists id :: IsSubject(c, u, id) && MayMove(c.orders[id].status, u.status))
            && (outcome == UnknownOrder <==> u.status != UnknownStatus && !exists id :: IsSubject(c, u, id))
            && (outcome == UnknownOrder ==> c' == c.(unknownUpdates := c.unknownUpdates + 1))
            && (outcome == TransitionRejected ==> c' == c.(transitionRejects := c.transitionRejects + 1))
  {
    if Subject(c, u).Some? {
      var id := Subject(c, u).value;
      SubjectMeans(c, u, id);
      MoveMeans(c.orders[id].status, u.status);
      forall other | IsSubject(c, u, other) ensures other == id {
        SubjectMeans(c, u, other);
      }
    } else {
      forall id ensures !IsSubject(c, u, id) {
        SubjectMeans(c, u, id);
      }
    }
  }

  /** In particular a report that a live order is filled, canceled or rejected is always applied, and ends it. */
  lemma LiveOrdersCanBeFinished(c: Core, u: Update, id: string)
    requires IsSubject(c, u, id) && StillOpen(c.orders[id].status)
    requires u.status == Filled || u.status == Canceled || u.status == Rejected
    ensures Apply(c, u).2 == Applied && id in Apply(c, u).0.orders
    ensures var status := Apply(c, u).0.orders[id].status;
            && (status == InFilled <==> u.status == Filled) && (status == InCanceled <==> u.status == Canceled)
            && (status == InRejected <==> u.status == Rejected)
  {
    SubjectMeans(c, u, id);
    MoveMeans(c.orders[id].status, u.status);
  }

  /** What an applied update writes into its order. */
  predicate Writes(o: Order, o': Order, u: Update) {
    && HasStatus(o'.status, u.status)
    && o'.requestId == o.requestId && o'.action == o.action && o'.clientId == o.clientId
    && o'.replacing == o.replacing && o'.requested == o.requested
    && (if u.market == "" then o'.market == o.market else o'.market == u.market)
    && (if u.exchangeId == None || u.exchangeId == Some("") then o'.exchangeId == o.exchangeId
        else o'.exchangeId == u.exchangeId)
    && (match u.data
        case FillData(fill) =>
          && (if o.side == UnknownSide then o'.side == fill.side else o'.side == o.side)
          && (if u.status == Filled && 0 < o.requested then o'.filled == o.requested
              else o.filled <= o'.filled && fill.qty <= o'.filled && (o'.filled == o.filled || o'.filled == fill.qty))
        case _ => o'.side == o.side && o'.filled == o.filled)
  }

  lemma OrderIsWritten(o: Order, next: InFlightStatus, u: Update)
    requires HasStatus(next, u.status)
    ensures Writes(o, UpdatedOrder(o, next, u), u)
  {
  }

  /** An applied update writes into its own order, files its exchange id and counts; nothing else changes. */
  lemma UpdateWrites(c: Core, u: Update, id: string)
    requires IsSubject(c, u, id) && Apply(c, u).2 == Applied
    ensures var c' := Apply(c, u).0;
            && id in c'.orders && Writes(c.orders[id], c'.orders[id], u)
            && c' == c.(orders := c.orders[id := c'.orders[id]], byExchange := c'.byExchange, applied := c.applied + 1)
            && c'.byExchange == (if u.exchangeId == None || u.exchangeId == Some("") then c.byExchange
                                 else c.byExchange[u.exchangeId.value := c.orders[id].clientId])
  {
    SubjectMeans(c, u, id);
    MoveMeans(c.orders[id].status, u.status);
    OrderIsWritten(c.orders[id], ToInFlight(u.status).value, u);
  }

  /** The update is passed on as it came, except that a fill that names no side takes the order's. */
  lemma UpdateIsPassedOn(c: Core, u: Update, id: string)
    requires IsSubject(c, u, id) && Apply(c, u).2 == Applied
    ensures var u', side := Apply(c, u).1, c.orders[id].side;
            if u.data.FillData? && u.data.fill.side == UnknownSide then
              u' == u.(data := u'.data) && u'.data.FillData? && u'.data.fill == u.data.fill.(side := u'.data.fill.side)
              && u'.data.fill.side == side
            else u' == u
  {
    SubjectMeans(c, u, id);
  }

  /** So the ledger books a fill that names no side on the side of its order. */
  lemma SidelessFillIsBookedOnTheOrdersSide(c: Core, u: Update, id: string, l: Ledger)
    requires IsSubject(c, u, id) && Apply(c, u).2 == Applied && (u.status == Filled || u.status == PartiallyFilled)
    requires u.data.FillData? && u.data.fill.side == UnknownSide && 0 < u.data.fill.qty && u.data.fill.market != ""
    requires c.orders[id].side != UnknownSide
    ensures var k := Key(u.exchange, u.data.fill.market);
            var p, p' := PositionAt(l, k), PositionAt(OnUpdate(l, Apply(c, u).1).0, k);
            if c.orders[id].side == Buy || c.orders[id].side == Bid
            then p'.bought == p.bought + u.data.fill.qty && p'.sold == p.sold
            else p'.sold == p.sold + u.data.fill.qty && p'.bought == p.bought
  {
    UpdateIsPassedOn(c, u, id);
    UpdateBooksOnItsSide(l, Apply(c, u).1, Key(u.exchange, u.data.fill.market));
  }

  // ---------------------------------------------------------------- whole runs

  /** Whether a report was applied to an order, with a fill in it. */
  predicate FillsOrder(c: Core, e: Event, id: string) {
    e.Report? && e.update.data.FillData? && IsSubject(c, e.update, id) && MayMove(c.orders[id].status, e.update.status)
  }

  /** The highest quantity any fill applied to an order has reported, 0 at least. */
  function HighestReported(es: seq<Event>, id: string): int {
    if es == [] then 0
    else
      var c, e := CoreRun(EMPTY_CORE, es[..|es| - 1]), es[|es| - 1];
      if FillsOrder(c, e, id) then Max(HighestReported(es[..|es| - 1], id), e.update.data.fill.qty)
      else HighestReported(es[..|es| - 1], id)
  }

  lemma {:induction false} NothingReported(es: seq<Event>, id: string)
    requires id !in CoreRun(EMPTY_CORE, es).orders
    ensures HighestReported(es, id) == 0
  {
    if es != [] {
      var front, e := es[..|es| - 1], es[|es| - 1];
      if id in CoreRun(EMPTY_CORE, front).orders {
        StepSettles(CoreRun(EMPTY_CORE, front), e, id);
      } else {
        NothingReported(front, id);
      }
    }
  }

  lemma ReportMovesFilled(c: Core, e: Event, id: string)
    requires id in c.orders && CoreStep(c, e).orders[id].status != InFilled
    ensures c.orders[id].status != InFilled
    ensures CoreStep(c, e).orders[id].filled
            == if FillsOrder(c, e, id) then Max(c.orders[id].filled, e.update.data.fill.qty) else c.orders[id].filled
  {
    StepSettles(c, e, id);
    if e.Report? {
      var u := e.update;
      SubjectMeans(c, u, id);
      if Subject(c, u) == Some(id) {
        MoveMeans(c.orders[id].status, u.status);
      }
    }
  }

  /**
   Over every run: until an order is filled, a reported quantity is read as the total so far, so what the order calls
   filled is the highest one reported, not their sum.
   */
  lemma {:induction false} FilledIsHighestReported(es: seq<Event>, id: string)
    requires id in CoreRun(EMPTY_CORE, es).orders && CoreRun(EMPTY_CORE, es).orders[id].status != InFilled
    ensures CoreRun(EMPTY_CORE, es).orders[id].filled == HighestReported(es, id)
  {
    if es != [] {
      var front, e := es[..|es| - 1], es[|es| - 1];
      var c := CoreRun(EMPTY_CORE, front);
      if id in c.orders {
        ReportMovesFilled(c, e, id);
        FilledIsHighestReported(front, id);
      } else {
        NothingReported(front, id);
        assert !FillsOrder(c, e, id);
        assert CoreStep(c, e).orders[id].filled == 0;
      }
    }
  }
}
