/**
 The order manager as a step machine. Any number of threads submit; one worker drains, gates, sends and receives.
 Each step is what one critical section, or one worker-only stretch of code, does. A run is any sequence of actions:
 an action that is not enabled leaves the state as it is, so the runs are exactly the interleavings.
 */
module OmsMachine {
  import opened MarketTypes
  import opened OmsTypes
  import opened RiskGates
  import opened OrderCore
  import opened OrderCoreProperties
  import opened KalshiAdapter

  /** `provided`: whether a provider of portfolio snapshots is configured. */
  datatype Config = Config(globalRisk: GlobalRiskConfig, portfolioRisk: PortfolioRiskConfig, provided: bool)

  /** How far the worker is with the intent it holds. */
  datatype Phase = Taken | PassedGlobal | Cleared

  datatype Hand = Empty | Holding(intent: Intent, phase: Phase)

  datatype State = State(
    core: Core,
    requestIds: nat,          // request ids handed out
    staged: seq<Intent>,      // tracked by a submitting thread, not yet enqueued
    uncounted: nat,           // enqueued, not yet counted as submitted
    queue: seq<Intent>,       // the outbound queue
    local: seq<Intent>,       // what the worker swapped out of the queue and has not taken yet
    hand: Hand,
    submitted: nat,
    sentCount: nat,
    sendFailed: nat,
    received: nat,
    parseFailed: nat,
    drops: nat,
    unsupported: nat,
    sent: set<string>,        // history: client ids of the places and replaces sent
    published: seq<Update>,   // history: what the event sink was given
    refused: nat,             // history: how many of these it did not accept
    events: seq<Event>)       // history: what happened to the core

  const START := State(EMPTY_CORE, 0, [], 0, [], [], Empty, 0, 0, 0, 0, 0, 0, 0, {}, [], 0, [])

  datatype Action =
    | SubmitTrack(intent: Intent)
    | SubmitEnqueue(i: nat)
    | SubmitCount
    | DrainSwap
    | TakeNext
    | GlobalGate(sinkAccepts: bool)
    | PortfolioGate(snapshot: Option<PortfolioRiskSnapshot>, sinkAccepts: bool)
    | Send(transportAccepts: bool)
    | Receive(message: Message, sinkAccepts: bool)
    | Notice(update: Update, sinkAccepts: bool)   // received through an adapter that may report anything

  /** One more event for the core. */
  function Happens(s: State, e: Event): State {
    s.(core := CoreStep(s.core, e), events := s.events + [e])
  }

  predicate Idle(s: State) {
    s.hand.Empty? && s.local == []
  }

  predicate Enabled(s: State, a: Action) {
    match a
    case SubmitTrack(_) => true
    case SubmitEnqueue(i) => i < |s.staged|
    case SubmitCount => s.uncounted > 0
    case DrainSwap => Idle(s)
    case TakeNext => s.hand.Empty? && s.local != []
    case GlobalGate(_) => s.hand.Holding? && s.hand.phase == Taken
    case PortfolioGate(_, _) => s.hand.Holding? && s.hand.phase == PassedGlobal
    case Send(_) => s.hand.Holding? && s.hand.phase == Cleared
    case Receive(_, _) => Idle(s)
    case Notice(_, _) => Idle(s)
  }

  /** The portfolio gate has a snapshot to look at exactly if a provider is configured. */
  predicate Answers(cfg: Config, a: Action) {
    a.PortfolioGate? ==> (a.snapshot.Some? <==> cfg.provided)
  }

  function PortfolioDecision(cfg: Config, x: Intent, snapshot: Option<PortfolioRiskSnapshot>): Option<PortfolioReject> {
    if snapshot.None? then None else EvaluatePortfolio(cfg.portfolioRisk, x, snapshot.value)
  }

  /** An update reaches the core; if it is applied the event sink is told. */
  function Deliver(s: State, u: Update, sinkAccepts: bool): State {
    var outcome := OutcomeOf(s.core, u);
    Happens(s, Report(u)).(
      published := if outcome == Applied then s.published + [Apply(s.core, u).1] else s.published,
      refused := if outcome == Applied && !sinkAccepts then s.refused + 1 else s.refused,
      drops := if outcome == Applied && sinkAccepts then s.drops else s.drops + 1)
  }

  /** A gate turned the held intent down: the rejection is counted, the order told, the intent dropped. */
  function TurnDown(s: State, gate: Event, reason: string, sinkAccepts: bool): State
    requires s.hand.Holding?
  {
    Deliver(Happens(s, gate).(hand := Empty), RejectUpdate(s.hand.intent, reason), sinkAccepts)
  }

  ghost function Step(cfg: Config, s: State, a: Action): State {
    if !Enabled(s, a) || !Answers(cfg, a) then s
    else match a
      case SubmitTrack(intent) =>
        if !Supports(intent) then s.(unsupported := s.unsupported + 1)
        else
          Happens(s, Submission(s.requestIds + 1, intent)).(
            requestIds := s.requestIds + 1,
            staged := if PolicyCheck(s.core, intent).None? then s.staged + [intent] else s.staged)
      case SubmitEnqueue(i) =>
        s.(staged := s.staged[..i] + s.staged[i + 1..], queue := s.queue + [s.staged[i]],
           uncounted := s.uncounted + 1)
      case SubmitCount =>
        s.(uncounted := s.uncounted - 1, submitted := s.submitted + 1)
      case DrainSwap =>
        s.(local := s.queue, queue := [])
      case TakeNext =>
        s.(hand := Holding(s.local[0], Taken), local := s.local[1..])
      case GlobalGate(sinkAccepts) =>
        var intent := s.hand.intent;
        var decision := GlobalDecision(s.core, cfg.globalRisk, intent);
        if decision.None? then s.(hand := Holding(intent, PassedGlobal))
        else TurnDown(s, GlobalRejection, GlobalRejectName(decision.value), sinkAccepts)
      case PortfolioGate(snapshot, sinkAccepts) =>
        var decision := PortfolioDecision(cfg, s.hand.intent, snapshot);
        if decision.None? then s.(hand := Holding(s.hand.intent, Cleared))
        else TurnDown(s, PortfolioRejection, PortfolioRejectName(decision.value), sinkAccepts)
      case Send(transportAccepts) =>
        var intent := s.hand.intent;
        if BuildRequest(intent).None? || !transportAccepts then s.(hand := Empty, sendFailed := s.sendFailed + 1)
        else s.(hand := Empty, sentCount := s.sentCount + 1,
                sent := if Creates(intent) then s.sent + {intent.clientId} else s.sent)
      case Receive(message, sinkAccepts) =>
        var s1 := s.(received := s.received + 1);
        var update := ParseUpdate(message);
        if update.None? then s1.(parseFailed := s.parseFailed + 1)
        else Deliver(s1, update.value, sinkAccepts)
      case Notice(update, sinkAccepts) =>
        Deliver(s.(received := s.received + 1), update, sinkAccepts)
  }

  ghost function Run(cfg: Config, s: State, actions: seq<Action>): State {
    if actions == [] then s else Step(cfg, Run(cfg, s, actions[..|actions| - 1]), actions[|actions| - 1])
  }

  lemma RunSnoc(cfg: Config, s: State, actions: seq<Action>, a: Action)
    ensures Run(cfg, s, actions + [a]) == Step(cfg, Run(cfg, s, actions), a)
  {
    assert (actions + [a])[..|actions|] == actions;
  }

  /** All updates come through the modelled adapter. */
  predicate FromAdapter(actions: seq<Action>) {
    forall i :: 0 <= i < |actions| ==> !actions[i].Notice?
  }

  /** Every interleaving drives the core through one sequence of its events, so all that is proved of those holds. */
  lemma {:induction false} CoreFollowsItsEvents(cfg: Config, actions: seq<Action>)
    ensures var s := Run(cfg, START, actions); s.core == CoreRun(EMPTY_CORE, s.events)
  {
    if actions != [] {
      CoreFollowsItsEvents(cfg, actions[..|actions| - 1]);
      StepFollowsEvents(cfg, Run(cfg, START, actions[..|actions| - 1]), actions[|actions| - 1]);
    }
  }

  lemma StepFollowsEvents(cfg: Config, s: State, a: Action)
    requires s.core == CoreRun(EMPTY_CORE, s.events)
    ensures Step(cfg, s, a).core == CoreRun(EMPTY_CORE, Step(cfg, s, a).events)
  {
    match a
    case SubmitTrack(intent) =>
      HappensFollows(s, Submission(s.requestIds + 1, intent));
    case GlobalGate(_) =>
      if Enabled(s, a) && GlobalDecision(s.core, cfg.globalRisk, s.hand.intent).Some? {
        var decision := GlobalDecision(s.core, cfg.globalRisk, s.hand.intent).value;
        TurnDownFollows(s, GlobalRejection, GlobalRejectName(decision));
      }
    case PortfolioGate(snapshot, _) =>
      if Enabled(s, a) && PortfolioDecision(cfg, s.hand.intent, snapshot).Some? {
        var decision := PortfolioDecision(cfg, s.hand.intent, snapshot).value;
        TurnDownFollows(s, PortfolioRejection, PortfolioRejectName(decision));
      }
    case Receive(message, _) =>
      if ParseUpdate(message).Some? {
        HappensFollows(s, Report(ParseUpdate(message).value));
      }
    case Notice(update, _) =>
      HappensFollows(s, Report(update));
    case _ =>
  }

  lemma TurnDownFollows(s: State, gate: Event, reason: string)
    requires s.core == CoreRun(EMPTY_CORE, s.events) && s.hand.Holding?
    ensures forall accepts ::
      var s' := TurnDown(s, gate, reason, accepts); s'.core == CoreRun(EMPTY_CORE, s'.events)
  {
    HappensFollows(s, gate);
    HappensFollows(Happens(s, gate), Report(RejectUpdate(s.hand.intent, reason)));
  }

  lemma HappensFollows(s: State, e: Event)
    requires s.core == CoreRun(EMPTY_CORE, s.events)
    ensures Happens(s, e).core == CoreRun(EMPTY_CORE, Happens(s, e).events)
  {
    assert (s.events + [e])[..|s.events|] == s.events;
  }

  /** So in every interleaving replace chains stay inside the tracked orders, never cycle and end at a place. */
  lemma ChainsHoldInEveryInterleaving(cfg: Config, actions: seq<Action>, id: string)
    requires id in Run(cfg, START, actions).core.orders
    ensures var orders := Run(cfg, START, actions).core.orders;
            && (forall n: nat :: Follow(orders, id, n).Some? ==>
                  Follow(orders, id, n).value in orders && (n > 0 ==> Follow(orders, id, n).value != id))
            && (exists n: nat :: Follow(orders, id, n).Some? && Follow(orders, id, n).value in orders &&
                  orders[Follow(orders, id, n).value].action == Place)
  {
    CoreFollowsItsEvents(cfg, actions);
    ReplaceChainsAreWellFounded(Run(cfg, START, actions).events, id);
  }

  /** And index and orders agree. */
  lemma IndexAgreesInEveryInterleaving(cfg: Config, actions: seq<Action>)
    ensures var c := Run(cfg, START, actions).core;
            && (forall x :: x in c.byExchange ==> c.byExchange[x] in c.orders)
            && (forall id :: id in c.orders && c.orders[id].exchangeId.Some? ==>
                  c.orders[id].exchangeId.value in c.byExchange)
  {
    CoreFollowsItsEvents(cfg, actions);
    IndexAndOrdersAgree(Run(cfg, START, actions).events);
  }
}
