/** No intent and no update is lost or counted twice, in any interleaving. */
module OmsConservation {
  import opened MarketTypes
  import opened OmsTypes
  import opened RiskGates
  import opened OrderCore
  import opened OrderCoreProperties
  import opened KalshiAdapter
  import opened OmsMachine

  function Held(h: Hand): nat {
    if h.Empty? then 0 else 1
  }

  /** By how much each balance of counters is off. */
  datatype Gaps = Gaps(intents: int, requests: int, updates: int, publications: int, drops: int)

  /** Every enqueued intent is queued, with the worker, sent, failed to send, or rejected by one of the gates. */
  function IntentGap(s: State): int {
    (|s.queue| + |s.local| + Held(s.hand) + s.sentCount + s.sendFailed + s.core.riskRejects + s.core.portfolioRejects)
    - (s.submitted + s.uncounted)
  }

  /** Every request id went to an intent that was rejected by policy, is staged, or was enqueued. */
  function RequestGap(s: State): int {
    s.requestIds - (s.core.policyRejects + |s.staged| + s.uncounted + s.submitted)
  }

  /** Every received update and every gate rejection was applied, refused, or about no known order. */
  function UpdateGap(s: State): int {
    (s.core.applied + s.core.transitionRejects + s.core.unknownUpdates + s.parseFailed)
    - (s.received + s.core.riskRejects + s.core.portfolioRejects)
  }

  /** Every applied update was given to the event sink. */
  function PublicationGap(s: State): int {
    |s.published| - s.core.applied
  }

  /** Every dropped update was refused by the core, about no known order, or not accepted by the event sink. */
  function DropGap(s: State): int {
    s.drops - (s.core.transitionRejects + s.core.unknownUpdates + s.refused)
  }

  function GapsOf(s: State): Gaps {
    Gaps(IntentGap(s), RequestGap(s), UpdateGap(s), PublicationGap(s), DropGap(s))
  }

  predicate Balanced(s: State) {
    IntentGap(s) == 0 && RequestGap(s) == 0 && UpdateGap(s) == 0 && PublicationGap(s) == 0 && DropGap(s) == 0
  }

  /** An update moves exactly one of the three outcome counters. */
  lemma DeliveryMoves(s: State, u: Update, accepts: bool)
    ensures var s' := Deliver(s, u, accepts);
            && UpdateGap(s') == UpdateGap(s) + 1 && IntentGap(s') == IntentGap(s) && RequestGap(s') == RequestGap(s)
            && PublicationGap(s') == PublicationGap(s) && DropGap(s') == DropGap(s)
  {
  }

  lemma TrackCounts(c: Core, requestId: nat, intent: Intent)
    ensures var c' := Track(c, requestId, intent).0;
            && c'.policyRejects == c.policyRejects + (if PolicyCheck(c, intent).Some? then 1 else 0)
            && c'.(orders := c.orders, policyRejects := c.policyRejects) == c
  {
  }

  lemma TurnDownKeepsGaps(s: State, gate: Event, reason: string, accepts: bool)
    requires s.hand.Holding? && (gate.GlobalRejection? || gate.PortfolioRejection?)
    ensures GapsOf(TurnDown(s, gate, reason, accepts)) == GapsOf(s)
  {
    DeliveryMoves(Happens(s, gate).(hand := Empty), RejectUpdate(s.hand.intent, reason), accepts);
  }

  lemma SubmitKeepsGaps(cfg: Config, s: State, intent: Intent)
    ensures GapsOf(Step(cfg, s, SubmitTrack(intent))) == GapsOf(s)
  {
    TrackCounts(s.core, s.requestIds + 1, intent);
  }

  /** One more update received and delivered. */
  lemma DeliveryKeepsGaps(s: State, u: Update, accepts: bool)
    ensures GapsOf(Deliver(s.(received := s.received + 1), u, accepts)) == GapsOf(s)
  {
    var s1 := s.(received := s.received + 1);
    ReceiptMoves(s, s1);
    DeliveryMoves(s1, u, accepts);
  }

  lemma ReceiptMoves(s: State, s1: State)
    requires s1 == s.(received := s.received + 1)
    ensures UpdateGap(s1) == UpdateGap(s) - 1 && IntentGap(s1) == IntentGap(s) && RequestGap(s1) == RequestGap(s)
    ensures PublicationGap(s1) == PublicationGap(s) && DropGap(s1) == DropGap(s)
  {
  }

  lemma UnreadKeepsGaps(s: State)
    ensures GapsOf(s.(received := s.received + 1, parseFailed := s.parseFailed + 1)) == GapsOf(s)
  {
  }

  lemma ReceiveKeepsGaps(cfg: Config, s: State, message: Message, accepts: bool)
    requires Idle(s)
    ensures GapsOf(Step(cfg, s, Receive(message, accepts))) == GapsOf(s)
  {
    if ParseUpdate(message).Some? {
      DeliveryKeepsGaps(s, ParseUpdate(message).value, accepts);
    } else {
      UnreadKeepsGaps(s);
    }
  }

  lemma MoveKeepsGaps(cfg: Config, s: State, a: Action)
    requires Enabled(s, a)
    requires a.SubmitEnqueue? || a.SubmitCount? || a.DrainSwap? || a.TakeNext? || a.Send?
    ensures GapsOf(Step(cfg, s, a)) == GapsOf(s)
  {
  }

  /** No step of any thread changes any balance. */
  lemma StepKeepsGaps(cfg: Config, s: State, a: Action)
    ensures GapsOf(Step(cfg, s, a)) == GapsOf(s)
  {
    if Enabled(s, a) {
      match a
      case SubmitTrack(intent) =>
        SubmitKeepsGaps(cfg, s, intent);
      case GlobalGate(accepts) =>
        var decision := GlobalDecision(s.core, cfg.globalRisk, s.hand.intent);
        if decision.Some? {
          TurnDownKeepsGaps(s, GlobalRejection, GlobalRejectName(decision.value), accepts);
        }
      case PortfolioGate(snapshot, accepts) =>
        var decision := PortfolioDecision(cfg, s.hand.intent, snapshot);
        if decision.Some? {
          TurnDownKeepsGaps(s, PortfolioRejection, PortfolioRejectName(decision.value), accepts);
        }
      case Receive(message, accepts) =>
        ReceiveKeepsGaps(cfg, s, message, accepts);
      case Notice(update, accepts) =>
        DeliveryKeepsGaps(s, update, accepts);
      case _ =>
        MoveKeepsGaps(cfg, s, a);
    }
  }

  /** Whatever state a run starts from, its balances stay off by as much as they were at the start. */
  lemma {:induction false} RunKeepsGaps(cfg: Config, s: State, actions: seq<Action>)
    ensures GapsOf(Run(cfg, s, actions)) == GapsOf(s)
  {
    if actions != [] {
      RunKeepsGaps(cfg, s, actions[..|actions| - 1]);
      StepKeepsGaps(cfg, Run(cfg, s, actions[..|actions| - 1]), actions[|actions| - 1]);
    }
  }

  /** Nothing has been counted yet. */
  predicate Uncounted(s: State) {
    && s.queue == [] && s.local == [] && s.staged == [] && s.published == [] && s.hand.Empty?
    && s.requestIds == s.uncounted == s.submitted == s.sentCount == s.sendFailed == 0
    && s.received == s.parseFailed == s.drops == s.refused == 0
    && s.core.riskRejects == s.core.portfolioRejects == s.core.policyRejects == 0
    && s.core.applied == s.core.transitionRejects == s.core.unknownUpdates == 0
  }

  lemma UncountedIsBalanced(s: State)
    requires Uncounted(s)
    ensures Balanced(s)
  {
  }

  lemma StartIsUncounted()
    ensures Uncounted(START)
  {
  }

  lemma AlwaysBalanced(cfg: Config, actions: seq<Action>)
    ensures Balanced(Run(cfg, START, actions))
  {
    StartIsUncounted();
    BalancedFrom(cfg, START, actions);
  }

  lemma BalancedFrom(cfg: Config, s: State, actions: seq<Action>)
    requires Uncounted(s)
    ensures Balanced(Run(cfg, s, actions))
  {
    UncountedIsBalanced(s);
    StaysBalanced(cfg, s, actions);
  }

  lemma StaysBalanced(cfg: Config, s: State, actions: seq<Action>)
    requires Balanced(s)
    ensures Balanced(Run(cfg, s, actions))
  {
    RunKeepsGaps(cfg, s, actions);
  }

  /** Nobody is in the middle of anything: no submission under way and the worker between two rounds. */
  predicate Quiescent(s: State) {
    s.staged == [] && s.uncounted == 0 && Idle(s)
  }

  /** Where the submitted intents are. */
  predicate IntentsAgree(s: State) {
    s.submitted == |s.queue| + s.sentCount + s.sendFailed + s.core.riskRejects + s.core.portfolioRejects
  }

  /** What became of the updates. */
  predicate UpdatesAgree(s: State) {
    s.core.applied + s.core.transitionRejects + s.core.unknownUpdates
    == s.received - s.parseFailed + s.core.riskRejects + s.core.portfolioRejects
  }

  /** Who got the request ids. */
  predicate RequestsAgree(s: State) {
    s.requestIds == s.submitted + s.core.policyRejects
  }

  predicate DropsAgree(s: State) {
    s.drops == s.core.transitionRejects + s.core.unknownUpdates + s.refused
  }

  /** The equations between the published counters, at every quiescent point of every run. */
  lemma CountersAgreeWhenQuiescent(cfg: Config, actions: seq<Action>)
    requires Quiescent(Run(cfg, START, actions))
    ensures var s := Run(cfg, START, actions);
            IntentsAgree(s) && UpdatesAgree(s) && RequestsAgree(s) && DropsAgree(s)
  {
    AlwaysBalanced(cfg, actions);
  }
}
