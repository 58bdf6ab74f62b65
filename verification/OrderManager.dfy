/**
 The order manager's methods as the worker and the submitting threads call them, over the paper venue, with the
 position ledger as event sink. Submitting, draining, pumping and stopping are each proved to be steps of
 `PaperMachine`, so from the first `Start` to the next what is proved of all runs holds of an object of this class.
 What a further `Start` keeps and what it breaks is the subject of `OmsRestart`.
 */
module OrderManager {
  import opened MarketTypes
  import opened OmsTypes
  import opened RiskGates
  import opened OrderCore
  import opened OrderCoreProperties
  import opened OrderManagerCore
  import opened KalshiAdapter
  import opened OmsMachine
  import opened LedgerModel
  import LedgerProperties
  import opened PositionLedger
  import opened PaperVenue
  import opened PaperMachine
  import opened OmsRestart

  // ---------------------------------------------------------------- a round of the worker, on values

  /** The portfolio snapshot the worker asks the ledger for, if a provider is configured. */
  ghost function SnapshotOf(cfg: Config, p: Paper): Option<PortfolioRiskSnapshot> {
    if cfg.provided && p.oms.hand.Holding? then
      Some(SnapshotFor(LedgerOf(p.oms), p.oms.hand.intent.exchange, p.oms.hand.intent.market))
    else None
  }

  /** Takes the next intent through both gates and out; a step whose turn has passed does nothing. */
  ghost function HandleNext(cfg: Config, p: Paper): Paper {
    var taken := PaperStep(cfg, p, Take);
    var gated := PaperStep(cfg, taken, Gate);
    var checked := PaperStep(cfg, gated, Check(SnapshotOf(cfg, gated)));
    PaperStep(cfg, checked, Dispatch)
  }

  ghost function HandleAll(cfg: Config, p: Paper, n: nat): Paper {
    if n == 0 then p else HandleNext(cfg, HandleAll(cfg, p, n - 1))
  }

  ghost function DrainWhole(cfg: Config, p: Paper): Paper {
    HandleAll(cfg, PaperStep(cfg, p, Swap), |p.oms.queue|)
  }

  lemma RunExtends(cfg: Config, p: Paper, moves: seq<Move>, m: Move)
    ensures PaperRun(cfg, p, moves + [m]) == PaperStep(cfg, PaperRun(cfg, p, moves), m)
  {
    assert (moves + [m])[..|moves|] == moves;
  }

  lemma {:induction false} HandlingIsARun(cfg: Config, p: Paper, n: nat, start: Paper,
                                          before: seq<Move>) returns (moves: seq<Move>)
    requires p == PaperRun(cfg, start, before)
    ensures HandleAll(cfg, p, n) == PaperRun(cfg, start, moves)
  {
    if n == 0 {
      moves := before;
    } else {
      var done := HandlingIsARun(cfg, p, n - 1, start, before);
      var q := HandleAll(cfg, p, n - 1);
      var gated := PaperStep(cfg, PaperStep(cfg, q, Take), Gate);
      var check := Check(SnapshotOf(cfg, gated));
      RunExtends(cfg, start, done, Take);
      RunExtends(cfg, start, done + [Take], Gate);
      RunExtends(cfg, start, done + [Take] + [Gate], check);
      RunExtends(cfg, start, done + [Take] + [Gate] + [check], Dispatch);
      moves := done + [Take] + [Gate] + [check] + [Dispatch];
    }
  }

  /** Draining the queue is a run of the machine from any state a run has reached. */
  lemma DrainIsARun(cfg: Config, p: Paper, start: Paper, before: seq<Move>) returns (moves: seq<Move>)
    requires p == PaperRun(cfg, start, before)
    ensures DrainWhole(cfg, p) == PaperRun(cfg, start, moves)
  {
    RunExtends(cfg, start, before, Swap);
    moves := HandlingIsARun(cfg, PaperStep(cfg, p, Swap), |p.oms.queue|, start, before + [Swap]);
  }

  function Tracked(s: State, intent: Intent): State {
    Happens(s, Submission(s.requestIds + 1, intent)).(requestIds := s.requestIds + 1)
  }

  /** A whole submission at once. */
  function Submitted(s: State, intent: Intent): State {
    if !Supports(intent) then s.(unsupported := s.unsupported + 1)
    else if PolicyCheck(s.core, intent).Some? then Tracked(s, intent)
    else Tracked(s, intent).(queue := s.queue + [intent], submitted := s.submitted + 1)
  }

  lemma SubmittedInParts(s: State, intent: Intent, error: Option<PolicyError>)
    requires Supports(intent) && error == PolicyCheck(s.core, intent)
    ensures Submitted(s, intent)
            == var t := Tracked(s, intent);
               if error.Some? then t else t.(queue := t.queue + [intent], submitted := t.submitted + 1)
  {
  }

  lemma SubmittedIsSubmit(cfg: Config, p: Paper, intent: Intent)
    requires p.oms.staged == []
    ensures PaperStep(cfg, p, Submit(intent))
            == p.(oms := Submitted(p.oms, intent), threatened := Threatened(p, intent))
  {
    if Supports(intent) && PolicyCheck(p.oms.core, intent).None? {
      var tracked := Step(cfg, p.oms, SubmitTrack(intent));
      assert tracked.staged == [intent];
      assert [intent][..0] + [intent][1..] == [];
    }
  }

  /** What sending an intent that passed both gates does; the worker's hand is already empty. */
  function Dispatched(p: Paper, x: Intent): Paper {
    var request := BuildRequest(x);
    if request.None? then p.(oms := p.oms.(sendFailed := p.oms.sendFailed + 1))
    else
      var (venue, ok) := SendTo(p.venue, Object(request.value));
      if !ok then p.(venue := venue, oms := p.oms.(sendFailed := p.oms.sendFailed + 1))
      else SentOut(p.(venue := venue), x)
  }

  /** What the manager notes when the venue has taken an intent. */
  function SentOut(p: Paper, x: Intent): Paper {
    p.(oms := p.oms.(sentCount := p.oms.sentCount + 1,
                     sent := if Creates(x) then p.oms.sent + {x.clientId} else p.oms.sent),
       places := if x.action == Place then p.places + [x] else p.places)
  }

  /** What a gate that turned an intent down does. */
  function TurnedDown(p: Paper, x: Intent, gate: Event, reason: string): Paper {
    p.(oms := Deliver(Happens(p.oms, gate), RejectUpdate(x, reason), true))
  }

  ghost function Checked(cfg: Config, p: Paper, x: Intent): Paper {
    var snapshot := SnapshotFor(LedgerOf(p.oms), x.exchange, x.market);
    var decision := if cfg.provided then EvaluatePortfolio(cfg.portfolioRisk, x, snapshot) else None;
    if decision.Some? then TurnedDown(p, x, PortfolioRejection, PortfolioRejectName(decision.value))
    else Dispatched(p, x)
  }

  /** The whole handling of one intent taken out of the line. */
  ghost function Handled(cfg: Config, p: Paper, x: Intent): Paper {
    var decision := GlobalDecision(p.oms.core, cfg.globalRisk, x);
    if decision.Some? then TurnedDown(p, x, GlobalRejection, GlobalRejectName(decision.value))
    else Checked(cfg, p, x)
  }

  lemma DispatchedIsDispatch(cfg: Config, p: Paper, x: Intent, q: Paper)
    requires p.oms.hand.Empty? && q == p.(oms := p.oms.(hand := Holding(x, Cleared)))
    ensures PaperStep(cfg, q, Dispatch) == Dispatched(p, x)
  {
  }

  /** With an empty hand the remaining steps of a round do nothing. */
  lemma NothingLeft(cfg: Config, p: Paper, snapshot: Option<PortfolioRiskSnapshot>)
    requires p.oms.hand.Empty?
    ensures PaperStep(cfg, PaperStep(cfg, p, Check(snapshot)), Dispatch) == p
  {
  }

  lemma CheckedIsCheck(cfg: Config, p: Paper, x: Intent, q: Paper)
    requires p.oms.hand.Empty? && q == p.(oms := p.oms.(hand := Holding(x, PassedGlobal)))
    ensures PaperStep(cfg, PaperStep(cfg, q, Check(SnapshotOf(cfg, q))), Dispatch) == Checked(cfg, p, x)
  {
    var checked := PaperStep(cfg, q, Check(SnapshotOf(cfg, q)));
    var decision := PortfolioDecision(cfg, x, SnapshotOf(cfg, q));
    CheckStep(cfg, p, x, q, decision);
    if decision.None? {
      DispatchedIsDispatch(cfg, p, x, checked);
    } else {
      NothingToDispatch(cfg, checked);
    }
  }

  lemma CheckStep(cfg: Config, p: Paper, x: Intent, q: Paper, decision: Option<PortfolioReject>)
    requires p.oms.hand.Empty? && q == p.(oms := p.oms.(hand := Holding(x, PassedGlobal)))
    requires decision == PortfolioDecision(cfg, x, SnapshotOf(cfg, q))
    ensures PaperStep(cfg, q, Check(SnapshotOf(cfg, q)))
            == if decision.Some? then TurnedDown(p, x, PortfolioRejection, PortfolioRejectName(decision.value))
               else p.(oms := p.oms.(hand := Holding(x, Cleared)))
  {
  }

  lemma NothingToDispatch(cfg: Config, p: Paper)
    requires p.oms.hand.Empty?
    ensures PaperStep(cfg, p, Dispatch) == p
  {
  }

  lemma HandledIsHandleNext(cfg: Config, p: Paper, x: Intent, rest: seq<Intent>)
    requires p.oms.hand.Empty? && p.oms.local == [x] + rest
    ensures HandleNext(cfg, p) == Handled(cfg, p.(oms := p.oms.(local := rest)), x)
  {
    var p0 := p.(oms := p.oms.(local := rest));
    var taken := PaperStep(cfg, p, Take);
    assert taken == p0.(oms := p0.oms.(hand := Holding(x, Taken)));
    GatedIsGate(cfg, p0, x, taken);
  }

  lemma GatedIsGate(cfg: Config, p: Paper, x: Intent, q: Paper)
    requires p.oms.hand.Empty? && q == p.(oms := p.oms.(hand := Holding(x, Taken)))
    ensures var gated := PaperStep(cfg, q, Gate);
            PaperStep(cfg, PaperStep(cfg, gated, Check(SnapshotOf(cfg, gated))), Dispatch)
            == Handled(cfg, p, x)
  {
    var gated := PaperStep(cfg, q, Gate);
    if GlobalDecision(p.oms.core, cfg.globalRisk, x).None? {
      CheckedIsCheck(cfg, p, x, gated);
    } else {
      NothingLeft(cfg, gated, SnapshotOf(cfg, gated));
    }
  }

  // ---------------------------------------------------------------- the object

  class Manager {
    const cfg: Config
    const core: CoreState
    const transport: PaperOrderTransport
    const ledger: PositionLedgerCore
    var running: bool
    var nextRequestId: nat
    var outbound: seq<Intent>
    var submitted: nat
    var sentCount: nat
    var sendFailed: nat
    var received: nat
    var parseFailed: nat
    var drops: nat
    var unsupported: nat
    ghost var history: History

    /** The state while the worker still has `local` to go through. */
    ghost function During(local: seq<Intent>): Paper
      reads this, core, transport
      requires 1 <= nextRequestId
    {
      Paper(State(core.View(), nextRequestId - 1, [], 0, outbound, local, Empty, submitted, sentCount, sendFailed,
                  received, parseFailed, drops, unsupported, history.sent, history.published, history.refused,
                  history.events),
            transport.View(), history.places, history.settled, history.threatened)
    }

    ghost function View(): Paper
      reads this, core, transport
      requires 1 <= nextRequestId
    {
      During([])
    }

    /** The core gates with this manager's limits, and the ledger has seen exactly what was published. */
    ghost predicate Valid()
      reads this, core, ledger
    {
      && 1 <= nextRequestId
      && core.globalRisk == cfg.globalRisk && core.portfolioRisk == cfg.portfolioRisk
      && ledger.View() == OnUpdates(EMPTY_LEDGER, history.published)
    }

    constructor (cfg: Config, autoFill: bool)
      ensures Valid() && fresh(core) && fresh(transport) && fresh(ledger) && !running
      ensures View().oms == START && View().places == [] && View().settled == 0 && View().threatened == {}
      ensures history.adrift == {}
      ensures View().venue == Venue(autoFill, false, 1, [], NoError)
    {
      this.cfg := cfg;
      core := new CoreState(cfg.globalRisk, cfg.portfolioRisk);
      transport := new PaperOrderTransport(autoFill);
      ledger := new PositionLedgerCore();
      running, nextRequestId, outbound := false, 1, [];
      submitted, sentCount, sendFailed, received, parseFailed, drops, unsupported := 0, 0, 0, 0, 0, 0, 0;
      history := History({}, [], 0, [], [], 0, {}, {});
    }

    /**
     Resets the counters and the core and connects. The outbound queue and the request ids are kept, although the
     orders are no longer tracked; the sent orders that were still live are adrift from then on.
     */
    method Start() returns (ok: bool)
      requires Valid()
      modifies this, core, transport
      ensures Valid() && running && ok == !old(running)
      ensures !ok ==> unchanged(this, core, transport)
      ensures ok ==> View().oms == Restarted(old(View()).oms)
      ensures ok ==> transport.View() == old(transport.View()).(connected := true, lastError := NoError)
      ensures ok ==> history == old(history).(sent := {}, refused := 0, events := [],
                                              adrift := old(history).adrift + NotEnded(old(View()).oms))
    {
      if running {
        return false;
      }
      ClearCounters(NotEnded(View().oms));
      running := true;
      core.Reset();
      transport.Connect();
      return true;
    }

    method ClearCounters(ghost live: set<string>)
      requires Valid()
      modifies this
      ensures Valid() && running == old(running) && nextRequestId == old(nextRequestId) && outbound == old(outbound)
      ensures submitted == sentCount == sendFailed == received == parseFailed == drops == unsupported == 0
      ensures history == old(history).(sent := {}, refused := 0, events := [], adrift := old(history).adrift + live)
    {
      history := history.(sent := {}, refused := 0, events := [], adrift := history.adrift + live);
      submitted, sentCount, sendFailed, received, parseFailed, drops, unsupported := 0, 0, 0, 0, 0, 0, 0;
    }

    method Stop()
      requires Valid()
      modifies this, transport
      ensures Valid() && !running
      ensures View() == if old(running) then PaperStep(cfg, old(View()), Close) else old(View())
    {
      if running {
        transport.Close();
      }
      running := false;
    }

    /** Validates, tracks and enqueues; refused while the worker is not running. */
    method SubmitIntent(intent: Intent) returns (id: Option<nat>)
      requires Valid()
      modifies this, core
      ensures Valid() && running == old(running)
      ensures !running ==> id.None? && View() == old(View())
      ensures running ==> View() == PaperStep(cfg, old(View()), Submit(intent))
      ensures id.Some? <==> running && Supports(intent) && PolicyCheck(old(core.View()), intent).None?
      ensures id.Some? ==> id.value == old(nextRequestId)
    {
      if !running {
        return None;
      }
      ghost var threatened := Threatened(View(), intent);
      SubmittedIsSubmit(cfg, View(), intent);
      id := TrackAndEnqueue(intent);
      history := history.(threatened := threatened);
    }

    method TrackAndEnqueue(intent: Intent) returns (id: Option<nat>)
      requires Valid()
      modifies this, core
      ensures Valid() && running == old(running)
      ensures View() == old(View()).(oms := Submitted(old(View()).oms, intent))
      ensures id == if Supports(intent) && PolicyCheck(old(core.View()), intent).None? then Some(old(nextRequestId))
                    else None
    {
      if !Supports(intent) {
        unsupported := unsupported + 1;
        return None;
      }
      ghost var before := View().oms;
      var error := TrackInCore(intent);
      SubmittedInParts(before, intent, error);
      if error.Some? {
        return None;
      }
      outbound := outbound + [intent];
      submitted := submitted + 1;
      return Some(nextRequestId - 1);
    }

    method TrackInCore(intent: Intent) returns (error: Option<PolicyError>)
      requires Valid()
      modifies this`history, this`nextRequestId, core
      ensures Valid() && error == PolicyCheck(old(core.View()), intent) && nextRequestId == old(nextRequestId) + 1
      ensures View() == old(View()).(oms := Tracked(old(View()).oms, intent))
    {
      var requestId := nextRequestId;
      nextRequestId := nextRequestId + 1;
      history := history.(events := history.events + [Submission(requestId, intent)]);
      error := core.ValidateAndTrackSubmission(requestId, intent);
    }

    /** Applies an update and passes it on; `local` is what the worker has still to go through. */
    method Tell(u: Update, ghost local: seq<Intent>)
      requires Valid()
      modifies this, core, ledger
      ensures Valid() && running == old(running)
      ensures During(local) == old(During(local)).(
                oms := Deliver(old(During(local)).oms, u, OnUpdate(old(ledger.View()), Apply(old(core.View()), u).1).1))
    {
      ghost var before := During(local).oms;
      ghost var answer := OnUpdate(ledger.View(), Apply(core.View(), u).1).1;
      history := history.(events := history.events + [Report(u)]);
      var update, outcome := core.ApplyUpdateTransition(u);
      DeliverInParts(before, u, answer, core.View(), update, outcome);
      if outcome != Applied {
        drops := drops + 1;
        return;
      }
      Publish(update, local);
    }

    /** Gives an applied update to the event sink. */
    method Publish(update: Update, ghost local: seq<Intent>)
      requires Valid()
      modifies this, ledger
      ensures Valid() && running == old(running)
      ensures During(local) == old(During(local)).(
                oms := Told(old(During(local)).oms, update, OnUpdate(old(ledger.View()), update).1))
    {
      LedgerProperties.OnUpdatesSnoc(EMPTY_LEDGER, history.published, update);
      history := history.(published := history.published + [update]);
      var accepted := ledger.OnOrderUpdate(update);
      if !accepted {
        drops := drops + 1;
        history := history.(refused := history.refused + 1);
      }
    }

    /** Counts a gate's rejection and tells the order. */
    method TurnDown(x: Intent, ghost gate: Event, reason: string, ghost local: seq<Intent>, ghost before: Paper)
      requires Valid() && During(local).oms.events == before.oms.events
      requires gate.GlobalRejection? || gate.PortfolioRejection?
      requires During(local) == before.(oms := before.oms.(core := CoreStep(before.oms.core, gate)))
      modifies this, core, ledger
      ensures Valid() && running == old(running)
      ensures During(local) == TurnedDown(before, x, gate, reason)
    {
      history := history.(events := history.events + [gate]);
      RejectIsAccepted(ledger.View(), core.View(), RejectUpdate(x, reason));
      Tell(RejectUpdate(x, reason), local);
    }

    /** One turn of the drain loop: both gates, then the venue. */
    method HandleIntent(x: Intent, ghost local: seq<Intent>)
      requires Valid()
      modifies this, core, ledger, transport
      ensures Valid() && running == old(running)
      ensures During(local) == Handled(cfg, old(During(local)), x)
    {
      ghost var before := During(local);
      var decision := core.EvaluateGlobalRisk(x);
      if decision.Some? {
        TurnDown(x, GlobalRejection, GlobalRejectName(decision.value), local, before);
        return;
      }
      assert During(local) == before;
      CheckAndSend(x, local);
    }

    method CheckAndSend(x: Intent, ghost local: seq<Intent>)
      requires Valid()
      modifies this, core, ledger, transport
      ensures Valid() && running == old(running)
      ensures During(local) == Checked(cfg, old(During(local)), x)
    {
      ghost var before := During(local);
      if cfg.provided {
        var snapshot := ledger.PortfolioSnapshot(x.exchange, x.market);
        var decision := core.EvaluatePortfolioRisk(x, snapshot);
        if decision.Some? {
          TurnDown(x, PortfolioRejection, PortfolioRejectName(decision.value), local, before);
          return;
        }
      }
      assert During(local) == before;
      SendIntent(x, local);
    }

    method SendIntent(x: Intent, ghost local: seq<Intent>)
      requires Valid()
      modifies this, transport
      ensures Valid() && running == old(running)
      ensures During(local) == Dispatched(old(During(local)), x)
    {
      var request := BuildRequest(x);
      if request.None? {
        sendFailed := sendFailed + 1;
        return;
      }
      var ok := transport.SendText(Object(request.value));
      if !ok {
        sendFailed := sendFailed + 1;
        return;
      }
      CountSent(x, local);
    }

    method CountSent(x: Intent, ghost local: seq<Intent>)
      requires Valid()
      modifies this
      ensures Valid() && running == old(running) && During(local) == SentOut(old(During(local)), x)
    {
      sentCount := sentCount + 1;
      history := history.(sent := if Creates(x) then history.sent + {x.clientId} else history.sent,
                          places := if x.action == Place then history.places + [x] else history.places);
    }

    /** The drain loop over the intents swapped out of the queue. */
    method HandleIntents(intents: seq<Intent>, ghost swapped: Paper)
      requires Valid() && During(intents) == swapped
      modifies this, core, ledger, transport
      ensures Valid() && running == old(running)
      ensures Turns(cfg, swapped, View(), |intents|)
    {
      var i := 0;
      while i < |intents|
        invariant i <= |intents| && Valid() && running == old(running)
        invariant Turns(cfg, swapped, During(intents[i..]), i)
      {
        ghost var mid := During(intents[i..]);
        HandleFirst(intents, i, mid);
        i := i + 1;
        assert Turns(cfg, swapped, mid, i - 1);
      }
      assert intents[i..] == [];
    }

    method HandleFirst(intents: seq<Intent>, i: nat, ghost before: Paper)
      requires Valid() && i < |intents| && During(intents[i..]) == before
      modifies this, core, ledger, transport
      ensures Valid() && running == old(running)
      ensures Turn(cfg, before, During(intents[i + 1..]))
    {
      ghost var rest := intents[i + 1..];
      assert intents[i..] == [intents[i]] + rest;
      assert During(rest) == before.(oms := before.oms.(local := rest));
      HandleIntent(intents[i], rest);
      HandledIsTurn(cfg, before, intents[i], rest, During(rest));
    }

    /** Swaps the queue out and handles every intent of it, in order. */
    method DrainOutboundIntents() returns (processed: nat)
      requires Valid()
      modifies this, core, ledger, transport
      ensures Valid() && running == old(running)
      ensures processed == |old(outbound)|
      ensures View() == DrainWhole(cfg, old(View()))
    {
      ghost var before := View();
      var intents := outbound;
      outbound := [];
      HandleIntents(intents, During(intents));
      processed := |intents|;
      TurnsAreDrain(cfg, before, View());
    }

    /** Receives at most one message and applies it. */
    method PumpIncomingUpdate() returns (processed: bool)
      requires Valid()
      modifies this, core, ledger, transport
      ensures Valid() && running == old(running)
      ensures processed <==> old(transport.connected && transport.inboundUpdates != [])
      ensures View() == PaperStep(cfg, old(View()), Pump)
    {
      ghost var before := View();
      var message := transport.RecvText();
      if message.None? {
        return false;
      }
      ProcessMessage(message.value);
      PumpedIsPump(cfg, before, message.value);
      return true;
    }

    method ProcessMessage(message: Message)
      requires Valid()
      modifies this, core, ledger
      ensures Valid() && running == old(running)
      ensures View() == Pumped(old(View()), message)
    {
      ghost var before := View();
      received := received + 1;
      history := history.(settled := if message.FillMessage? then history.settled + 1 else history.settled);
      assert View() == Registered(before, message);
      var update := ParseUpdate(message);
      if update.None? {
        parseFailed := parseFailed + 1;
        return;
      }
      Tell(update.value, []);
    }
  }

  // ---------------------------------------------------------------- the loop and the machine

  predicate Same(p: Paper, q: Paper) {
    p == q
  }

  /** `q` is `p` after one turn of the loop. The trigger keeps the turn abstract inside the loop's proof. */
  ghost predicate Turn(cfg: Config, p: Paper, q: Paper) {
    forall r {:trigger Same(p, r)} :: Same(p, r) ==> q == HandleNext(cfg, r)
  }

  ghost predicate Turns(cfg: Config, p: Paper, q: Paper, n: nat)
    decreases n
  {
    if n == 0 then q == p else exists mid :: Turns(cfg, p, mid, n - 1) && Turn(cfg, mid, q)
  }

  lemma HandledIsTurn(cfg: Config, p: Paper, x: Intent, rest: seq<Intent>, q: Paper)
    requires p.oms.hand.Empty? && p.oms.local == [x] + rest
    requires q == Handled(cfg, p.(oms := p.oms.(local := rest)), x)
    ensures Turn(cfg, p, q)
  {
    HandledIsHandleNext(cfg, p, x, rest);
  }

  lemma {:induction false} TurnsAreHandleAll(cfg: Config, p: Paper, q: Paper, n: nat)
    requires Turns(cfg, p, q, n)
    ensures q == HandleAll(cfg, p, n)
    decreases n
  {
    if n > 0 {
      var mid :| Turns(cfg, p, mid, n - 1) && Turn(cfg, mid, q);
      TurnsAreHandleAll(cfg, p, mid, n - 1);
      assert Same(mid, mid);
    }
  }

  lemma TurnsAreDrain(cfg: Config, p: Paper, q: Paper)
    requires Idle(p.oms) && Turns(cfg, p.(oms := p.oms.(local := p.oms.queue, queue := [])), q, |p.oms.queue|)
    ensures q == DrainWhole(cfg, p)
  {
    TurnsAreHandleAll(cfg, PaperStep(cfg, p, Swap), q, |p.oms.queue|);
  }

  function Registered(p: Paper, m: Message): Paper {
    p.(settled := if m.FillMessage? then p.settled + 1 else p.settled, oms := p.oms.(received := p.oms.received + 1))
  }

  /** What a received message does, the venue's queue apart. */
  function Pumped(p: Paper, m: Message): Paper {
    var q, u := Registered(p, m), ParseUpdate(m);
    q.(oms := if u.None? then q.oms.(parseFailed := q.oms.parseFailed + 1)
       else Deliver(q.oms, u.value, SinkAnswer(p.oms, m)))
  }

  lemma PumpedIsPump(cfg: Config, p: Paper, m: Message)
    requires Idle(p.oms) && RecvFrom(p.venue).1 == Some(m)
    ensures PaperStep(cfg, p, Pump) == Pumped(p, m).(venue := RecvFrom(p.venue).0)
  {
    if ParseUpdate(m).Some? {
      PumpedRead(cfg, p, m, ParseUpdate(m).value);
    }
  }

  lemma PumpedRead(cfg: Config, p: Paper, m: Message, u: Update)
    requires Idle(p.oms) && RecvFrom(p.venue).1 == Some(m) && ParseUpdate(m) == Some(u)
    ensures PaperStep(cfg, p, Pump) == Pumped(p, m).(venue := RecvFrom(p.venue).0)
  {
    ReceiveDelivers(cfg, p.oms, m, SinkAnswer(p.oms, m), u);
    var answer := SinkAnswer(p.oms, m);
    assert PaperStep(cfg, p, Pump)
        == p.(oms := Step(cfg, p.oms, Receive(m, answer)), venue := RecvFrom(p.venue).0,
              settled := if m.FillMessage? then p.settled + 1 else p.settled);
  }

  lemma ReceiveDelivers(cfg: Config, s: State, m: Message, answer: bool, u: Update)
    requires Idle(s) && ParseUpdate(m) == Some(u)
    ensures Step(cfg, s, Receive(m, answer)) == Deliver(s.(received := s.received + 1), u, answer)
  {
  }

  lemma DeliverInParts(s: State, u: Update, accepted: bool, core: Core, update: Update, outcome: Outcome)
    requires (core, update, outcome) == Apply(s.core, u)
    ensures var s' := s.(core := core, events := s.events + [Report(u)]);
            Deliver(s, u, accepted) == if outcome == Applied then Told(s', update, accepted)
                                       else s'.(drops := s.drops + 1)
  {
  }

  /** The ledger accepts, and ignores, what a gate publishes. */
  lemma RejectIsAccepted(l: Ledger, c: Core, u: Update)
    requires u.status == Rejected
    ensures OnUpdate(l, Apply(c, u).1).1
  {
  }

  /** The event sink was given an update and did or did not accept it. */
  function Told(s: State, u: Update, accepted: bool): State {
    s.(published := s.published + [u], refused := if accepted then s.refused else s.refused + 1,
       drops := if accepted then s.drops else s.drops + 1)
  }

  /** What the proofs remember and the program does not; `sent`, `refused` and `events` since the last start. */
  datatype History = History(
    sent: set<string>,
    published: seq<Update>,
    refused: nat,
    events: seq<Event>,
    places: seq<Intent>,
    settled: nat,
    threatened: set<string>,
    adrift: set<string>)       // sent and not known to have ended when a start dropped them
}
