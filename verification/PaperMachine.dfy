/**
 The order manager wired to the paper venue and to the position ledger. Tracking and enqueueing are one step here;
 everything else interleaves as in `OmsMachine`.
 */
module PaperMachine {
  import opened MarketTypes
  import opened OmsTypes
  import opened RiskGates
  import opened OrderCore
  import opened KalshiAdapter
  import opened OmsMachine
  import opened OmsExposure
  import opened LedgerModel
  import opened PaperVenue
  import opened PaperStream

  datatype Paper = Paper(
    oms: State,
    venue: Venue,
    places: seq<Intent>,     // history: the places sent, in order
    settled: nat,            // history: how many of their fills have been received
    threatened: set<string>) // history: ids of the places accepted while a cancel with their id was under way

  datatype Move =
    | Submit(intent: Intent)
    | Swap
    | Take
    | Gate
    | Check(snapshot: Option<PortfolioRiskSnapshot>)
    | Dispatch
    | Pump
    | Connect
    | Close

  /** A fresh manager and a fresh venue that fills on place. */
  predicate Begins(p: Paper) {
    p.oms == START && p.venue.autoFill && p.venue.inbound == [] && p.places == [] && p.settled == 0
    && p.threatened == {}
  }

  /** The ledger is the event sink. */
  function LedgerOf(s: State): Ledger {
    OnUpdates(EMPTY_LEDGER, s.published)
  }

  function SinkAnswer(s: State, m: Message): bool {
    var u := ParseUpdate(m);
    u.None? || OnUpdate(LedgerOf(s), Apply(s.core, u.value).1).1
  }

  /** What has been submitted and not yet dealt with, first to go out first. */
  function Line(s: State): seq<Intent> {
    InHand(s.hand) + s.local + s.queue
  }

  /** A cancel (or replace) with this id waits to be sent, or the venue's reject of one is on its way. */
  predicate UnderWay(p: Paper, id: string) {
    Kill(id) in Stream(p.venue.inbound, Line(p.oms))
  }

  predicate Accepts(s: State, x: Intent) {
    Supports(x) && PolicyCheck(s.core, x).None?
  }

  function Threatened(p: Paper, x: Intent): set<string> {
    if x.action == Place && Accepts(p.oms, x) && UnderWay(p, x.clientId) then p.threatened + {x.clientId}
    else p.threatened
  }

  ghost function SubmitWhole(cfg: Config, s: State, intent: Intent): State {
    var tracked := Step(cfg, s, SubmitTrack(intent));
    if |tracked.staged| == |s.staged| then tracked
    else Step(cfg, Step(cfg, tracked, SubmitEnqueue(|s.staged|)), SubmitCount)
  }

  ghost function DispatchOne(cfg: Config, p: Paper): Paper {
    if !Enabled(p.oms, Send(true)) then p
    else
      var intent := p.oms.hand.intent;
      var request := BuildRequest(intent);
      if request.None? then p.(oms := Step(cfg, p.oms, Send(true)))
      else
        var (venue, ok) := SendTo(p.venue, Object(request.value));
        p.(oms := Step(cfg, p.oms, Send(ok)), venue := venue,
           places := if ok && intent.action == Place then p.places + [intent] else p.places)
  }

  ghost function PumpOne(cfg: Config, p: Paper): Paper {
    var (venue, message) := RecvFrom(p.venue);
    if !Idle(p.oms) || message.None? then p
    else p.(oms := Step(cfg, p.oms, Receive(message.value, SinkAnswer(p.oms, message.value))), venue := venue,
            settled := if message.value.FillMessage? then p.settled + 1 else p.settled)
  }

  ghost function PaperStep(cfg: Config, p: Paper, m: Move): Paper {
    match m
    case Submit(intent) =>
      p.(oms := SubmitWhole(cfg, p.oms, intent), threatened := Threatened(p, intent))
    case Swap => p.(oms := Step(cfg, p.oms, DrainSwap))
    case Take => p.(oms := Step(cfg, p.oms, TakeNext))
    case Gate => p.(oms := Step(cfg, p.oms, GlobalGate(true)))
    case Check(snapshot) => p.(oms := Step(cfg, p.oms, PortfolioGate(snapshot, true)))
    case Dispatch => DispatchOne(cfg, p)
    case Pump => PumpOne(cfg, p)
    case Connect => p.(venue := p.venue.(connected := true, lastError := NoError))
    case Close => p.(venue := p.venue.(connected := false))
  }

  ghost function PaperRun(cfg: Config, p: Paper, moves: seq<Move>): Paper {
    if moves == [] then p else PaperStep(cfg, PaperRun(cfg, p, moves[..|moves| - 1]), moves[|moves| - 1])
  }

  lemma AnyStepKeepsSafe(cfg: Config, s: State, a: Action)
    requires Safe(cfg, s, "")
    ensures Safe(cfg, Step(cfg, s, a), "")
  {
    if Enabled(s, a) && Answers(cfg, a) {
      StepKeepsSafe(cfg, s, a, "");
    }
  }

  lemma SubmitWholeKeepsSafe(cfg: Config, s: State, x: Intent)
    requires Safe(cfg, s, "")
    ensures Safe(cfg, SubmitWhole(cfg, s, x), "")
  {
    var tracked := Step(cfg, s, SubmitTrack(x));
    AnyStepKeepsSafe(cfg, s, SubmitTrack(x));
    AnyStepKeepsSafe(cfg, tracked, SubmitEnqueue(|s.staged|));
    AnyStepKeepsSafe(cfg, Step(cfg, tracked, SubmitEnqueue(|s.staged|)), SubmitCount);
  }

  /** Whether the venue accepts what the worker holds; where no request can be built the answer does not matter. */
  function DispatchAnswer(p: Paper): bool
    requires p.oms.hand.Holding?
  {
    var request := BuildRequest(p.oms.hand.intent);
    request.None? || SendTo(p.venue, Object(request.value)).1
  }

  lemma DispatchKeepsSafe(cfg: Config, p: Paper)
    requires Safe(cfg, p.oms, "")
    ensures Safe(cfg, DispatchOne(cfg, p).oms, "")
  {
    if Enabled(p.oms, Send(true)) {
      var ok := DispatchAnswer(p);
      AnyStepKeepsSafe(cfg, p.oms, Send(ok));
      assert DispatchOne(cfg, p).oms == Step(cfg, p.oms, Send(ok));
    }
  }

  lemma PumpKeepsSafe(cfg: Config, p: Paper)
    requires Safe(cfg, p.oms, "")
    ensures Safe(cfg, PumpOne(cfg, p).oms, "")
  {
    var (_, message) := RecvFrom(p.venue);
    if message.Some? {
      AnyStepKeepsSafe(cfg, p.oms, Receive(message.value, SinkAnswer(p.oms, message.value)));
    }
  }

  /** Every paper step is made of steps of the order manager, so the exposure limits hold here too. */
  lemma PaperStepKeepsSafe(cfg: Config, p: Paper, m: Move)
    requires Safe(cfg, p.oms, "")
    ensures Safe(cfg, PaperStep(cfg, p, m).oms, "")
  {
    match m
    case Submit(x) => SubmitWholeKeepsSafe(cfg, p.oms, x);
    case Swap => AnyStepKeepsSafe(cfg, p.oms, DrainSwap);
    case Take => AnyStepKeepsSafe(cfg, p.oms, TakeNext);
    case Gate => AnyStepKeepsSafe(cfg, p.oms, GlobalGate(true));
    case Check(snapshot) => AnyStepKeepsSafe(cfg, p.oms, PortfolioGate(snapshot, true));
    case Dispatch => DispatchKeepsSafe(cfg, p);
    case Pump => PumpKeepsSafe(cfg, p);
    case _ =>
  }

  lemma {:induction false} PaperRunKeepsSafe(cfg: Config, p: Paper, moves: seq<Move>)
    requires Safe(cfg, p.oms, "")
    ensures Safe(cfg, PaperRun(cfg, p, moves).oms, "")
  {
    if moves != [] {
      PaperRunKeepsSafe(cfg, p, moves[..|moves| - 1]);
      PaperStepKeepsSafe(cfg, PaperRun(cfg, p, moves[..|moves| - 1]), moves[|moves| - 1]);
    }
  }

  /** So in every paper run the live sent orders, and their open quantity, stay within the limits switched on. */
  lemma PaperRunStaysWithinLimits(cfg: Config, p: Paper, moves: seq<Move>)
    requires Begins(p)
    ensures var s := PaperRun(cfg, p, moves).oms;
            && s.sent <= s.core.orders.Keys
            && Within(cfg.globalRisk.maxActiveGlobal, |Live(s.core.orders, s.sent)|)
            && Within(cfg.globalRisk.maxOutstandingGlobal, OpenQty(s.core.orders, Live(s.core.orders, s.sent)))
  {
    StartIsSafe(cfg, "");
    PaperRunKeepsSafe(cfg, p, moves);
    SafeIsWithin(cfg, PaperRun(cfg, p, moves).oms);
  }
}
