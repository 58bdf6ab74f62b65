/**
 Paper runs: once everything has arrived, a sent place is filled, and booked in the ledger, exactly if no cancel with
 its id was under way when it was submitted.
 */
module PaperTheorem {
  import opened MarketTypes
  import opened OmsTypes
  import opened RiskGates
  import opened OrderCore
  import opened OrderCoreProperties
  import opened KalshiAdapter
  import opened OmsMachine
  import opened OmsExposure
  import opened LedgerModel
  import opened PaperVenue
  import opened PaperMachine
  import opened PaperAgreement
  import S = PaperSteps

  function PartsOf(p: Paper): S.Parts {
    S.Parts(p.oms.core.orders, Line(p.oms), p.venue.inbound, p.places, p.settled, p.threatened, p.oms.published)
  }

  predicate Proper(xs: seq<Intent>) {
    forall i :: 0 <= i < |xs| ==> xs[i].clientId != "" && Supports(xs[i])
  }

  /** `sure`: the venue is and stays connected, so no cancel is lost. */
  ghost predicate Inv(p: Paper, sure: bool) {
    && p.oms.staged == [] && p.venue.autoFill && (sure ==> p.venue.connected)
    && Proper(Line(p.oms)) && p.threatened <= p.oms.core.orders.Keys && S.Agree(PartsOf(p), sure)
  }

  /** Where cancels may be lost, no threatened place has been sent. */
  predicate Spared(p: Paper, sure: bool) {
    sure || forall i :: 0 <= i < |p.places| ==> p.places[i].clientId !in p.threatened
  }

  // ---------------------------------------------------------------- submissions

  lemma TrackedSubmission(cfg: Config, s: State, x: Intent)
    requires s.staged == [] && Accepts(s, x)
    ensures var s' := SubmitWhole(cfg, s, x);
            && s'.staged == [] && Line(s') == Line(s) + [x] && s'.published == s.published
            && s'.core == Track(s.core, s.requestIds + 1, x).0
  {
    var tracked := Step(cfg, s, SubmitTrack(x));
    assert tracked.staged == [x];
    var enqueued := Step(cfg, tracked, SubmitEnqueue(0));
    assert enqueued.staged == [] && enqueued.queue == s.queue + [x];
    var s' := Step(cfg, enqueued, SubmitCount);
    assert s'.local == s.local && s'.hand == s.hand;
  }

  lemma RefusedSubmission(cfg: Config, s: State, x: Intent)
    requires s.staged == [] && !Accepts(s, x)
    ensures var s' := SubmitWhole(cfg, s, x);
            s'.staged == [] && Line(s') == Line(s) && s'.published == s.published && s'.core.orders == s.core.orders
  {
  }

  lemma AcceptedParts(cfg: Config, p: Paper, x: Intent)
    requires p.oms.staged == [] && Accepts(p.oms, x)
    ensures PartsOf(PaperStep(cfg, p, Submit(x))) == S.Submitted(PartsOf(p), p.oms.core, p.oms.requestIds + 1, x)
    ensures PaperStep(cfg, p, Submit(x)).oms.staged == []
  {
    TrackedSubmission(cfg, p.oms, x);
  }

  lemma AcceptedKeepsInv(cfg: Config, p: Paper, x: Intent, sure: bool)
    requires Inv(p, sure) && Accepts(p.oms, x)
    ensures Inv(PaperStep(cfg, p, Submit(x)), sure)
  {
    var p' := PaperStep(cfg, p, Submit(x));
    AcceptedParts(cfg, p, x);
    S.SubmissionAgrees(PartsOf(p), p.oms.core, p.oms.requestIds + 1, x, sure);
    assert x.clientId != "" && Supports(x);
    assert PartsOf(p').waiting == Line(p.oms) + [x];
  }

  lemma SubmitKeepsInv(cfg: Config, p: Paper, x: Intent, sure: bool)
    requires Inv(p, sure)
    ensures Inv(PaperStep(cfg, p, Submit(x)), sure)
  {
    if Accepts(p.oms, x) {
      AcceptedKeepsInv(cfg, p, x, sure);
    } else {
      RefusedSubmission(cfg, p.oms, x);
      assert PartsOf(PaperStep(cfg, p, Submit(x))) == PartsOf(p);
    }
  }

  // ---------------------------------------------------------------- the worker

  lemma SamePartsKeepInv(p: Paper, p': Paper, sure: bool)
    requires Inv(p, sure) && PartsOf(p') == PartsOf(p) && p'.oms.staged == [] && p'.venue.autoFill
    requires sure ==> p'.venue.connected
    ensures Inv(p', sure)
  {
  }

  lemma MoveKeepsInv(cfg: Config, p: Paper, m: Move, sure: bool)
    requires Inv(p, sure) && (m.Swap? || m.Take? || m.Connect? || (m.Close? && !sure))
    ensures Inv(PaperStep(cfg, p, m), sure)
  {
    var p' := PaperStep(cfg, p, m);
    assert Line(p'.oms) == Line(p.oms);
    SamePartsKeepInv(p, p', sure);
  }

  /** The first in line is the one in the worker's hand. */
  lemma HandIsFirst(s: State)
    requires s.hand.Holding?
    ensures Line(s) != [] && Line(s)[0] == s.hand.intent && Line(s)[1..] == s.local + s.queue
  {
    assert Line(s) == [s.hand.intent] + (s.local + s.queue);
  }

  lemma EmptyHand(s: State)
    requires s.hand.Empty?
    ensures Line(s) == s.local + s.queue
  {
  }

  lemma FirstIsTracked(p: S.Parts)
    requires S.Unique(p) && p.waiting != [] && Creates(p.waiting[0])
    ensures p.waiting[0].clientId in p.orders
  {
    assert (p.places + p.waiting)[|p.places|] == p.waiting[0];
  }

  lemma TurnDownKeepsInv(p: Paper, gate: Event, reason: string, s': State, sure: bool)
    requires Inv(p, sure) && p.oms.hand.Holding? && Creates(p.oms.hand.intent)
    requires (gate.GlobalRejection? || gate.PortfolioRejection?) && s' == TurnDown(p.oms, gate, reason, true)
    ensures Inv(p.(oms := s'), sure)
  {
    var u := RejectUpdate(p.oms.hand.intent, reason);
    HandIsFirst(p.oms);
    EmptyHand(s');
    ApplyTells(Happens(p.oms, gate).core, u);
    FirstIsTracked(PartsOf(p));
    S.RejectionAgrees(PartsOf(p), sure, reason, PartsOf(p.(oms := s')));
  }

  lemma GateKeepsInv(cfg: Config, p: Paper, sure: bool)
    requires Inv(p, sure)
    ensures Inv(PaperStep(cfg, p, Gate), sure)
  {
    var p' := PaperStep(cfg, p, Gate);
    if Enabled(p.oms, GlobalGate(true)) && GlobalDecision(p.oms.core, cfg.globalRisk, p.oms.hand.intent).Some? {
      var decision := GlobalDecision(p.oms.core, cfg.globalRisk, p.oms.hand.intent);
      TurnDownKeepsInv(p, GlobalRejection, GlobalRejectName(decision.value), p'.oms, sure);
    } else {
      SamePartsKeepInv(p, p', sure);
    }
  }

  lemma CheckKeepsInv(cfg: Config, p: Paper, snapshot: Option<PortfolioRiskSnapshot>, sure: bool)
    requires Inv(p, sure)
    ensures Inv(PaperStep(cfg, p, Check(snapshot)), sure)
  {
    var p' := PaperStep(cfg, p, Check(snapshot));
    var a := PortfolioGate(snapshot, true);
    if Enabled(p.oms, a) && Answers(cfg, a) && PortfolioDecision(cfg, p.oms.hand.intent, snapshot).Some? {
      var decision := PortfolioDecision(cfg, p.oms.hand.intent, snapshot);
      TurnDownKeepsInv(p, PortfolioRejection, PortfolioRejectName(decision.value), p'.oms, sure);
    } else {
      SamePartsKeepInv(p, p', sure);
    }
  }

  /** The hand was emptied and nothing else happened at the manager. */
  predicate Dispatched(p: Paper, p': Paper) {
    && p.oms.hand.Holding? && p'.oms.hand.Empty? && p'.oms.local == p.oms.local && p'.oms.queue == p.oms.queue
    && p'.oms.staged == p.oms.staged && p'.oms.core == p.oms.core && p'.oms.published == p.oms.published
    && p'.settled == p.settled && p'.threatened == p.threatened
  }

  lemma FailedDispatch(p: Paper, p': Paper, sure: bool)
    requires Inv(p, sure) && Dispatched(p, p') && (sure ==> Creates(p.oms.hand.intent))
    requires p'.venue.autoFill && (sure ==> p'.venue.connected)
    requires p'.venue.inbound == p.venue.inbound && p'.places == p.places
    ensures Inv(p', sure)
  {
    HandIsFirst(p.oms);
    EmptyHand(p'.oms);
    S.FailureAgrees(PartsOf(p), sure);
  }

  lemma PlacedDispatch(p: Paper, p': Paper, sure: bool)
    requires Inv(p, sure) && Dispatched(p, p') && p.venue.connected
    requires p.oms.hand.intent.action == Place && BuildRequest(p.oms.hand.intent).Some?
    requires p'.venue == SendTo(p.venue, Object(BuildRequest(p.oms.hand.intent).value)).0
    requires p'.places == p.places + [p.oms.hand.intent] && Spared(p', sure)
    ensures Inv(p', sure)
  {
    var x, n := p.oms.hand.intent, |p.venue.inbound|;
    HandIsFirst(p.oms);
    EmptyHand(p'.oms);
    PlaceRoundTrip(p.venue, x);
    var ack, fill := p'.venue.inbound[n], p'.venue.inbound[n + 1];
    assert p'.venue.inbound == p.venue.inbound + [ack, fill];
    assert p'.places[|p.places|] == x;
    S.PlaceAgrees(PartsOf(p), sure, ack, fill);
  }

  lemma OtherDispatch(p: Paper, p': Paper, sure: bool)
    requires Inv(p, sure) && Dispatched(p, p') && p.venue.connected
    requires p.oms.hand.intent.action != Place && BuildRequest(p.oms.hand.intent).Some?
    requires p'.venue == SendTo(p.venue, Object(BuildRequest(p.oms.hand.intent).value)).0 && p'.places == p.places
    ensures Inv(p', sure)
  {
    var x, n := p.oms.hand.intent, |p.venue.inbound|;
    HandIsFirst(p.oms);
    EmptyHand(p'.oms);
    OtherRoundTrip(p.venue, x);
    var reject := p'.venue.inbound[n];
    assert p'.venue.inbound == p.venue.inbound + [reject];
    S.OtherAgrees(PartsOf(p), sure, reject);
  }

  /** A cancel always builds, so while connected it always goes out. */
  lemma CancelBuilds(p: Paper)
    requires Proper(Line(p.oms)) && p.oms.hand.Holding?
    ensures BuildRequest(p.oms.hand.intent).None? ==> Creates(p.oms.hand.intent)
    ensures p.oms.hand.intent.clientId != ""
  {
    HandIsFirst(p.oms);
  }

  lemma DispatchKeepsInv(cfg: Config, p: Paper, sure: bool)
    requires Inv(p, sure) && Spared(PaperStep(cfg, p, Dispatch), sure)
    ensures Inv(PaperStep(cfg, p, Dispatch), sure)
  {
    var p' := PaperStep(cfg, p, Dispatch);
    if Enabled(p.oms, Send(true)) {
      var x := p.oms.hand.intent;
      CancelBuilds(p);
      if BuildRequest(x).None? || !p.venue.connected {
        FailedDispatch(p, p', sure);
      } else if x.action == Place {
        PlaceRoundTrip(p.venue, x);
        PlacedDispatch(p, p', sure);
      } else {
        OtherRoundTrip(p.venue, x);
        OtherDispatch(p, p', sure);
      }
    }
  }

  lemma PumpReceives(cfg: Config, p: Paper, u: Update)
    requires Idle(p.oms) && p.venue.connected && p.venue.inbound != [] && ParseUpdate(p.venue.inbound[0]) == Some(u)
    requires u.clientId in p.oms.core.orders || u.exchangeId.None?
    ensures var p' := PaperStep(cfg, p, Pump);
            && PartsOf(p') == S.Received(PartsOf(p), u) && p'.oms.staged == p.oms.staged
            && p'.venue.autoFill == p.venue.autoFill && p'.venue.connected
  {
    PumpDelivers(cfg, p, u);
    ApplyTells(p.oms.core, u);
    DeliveredParts(p.oms, u, SinkAnswer(p.oms, p.venue.inbound[0]));
  }

  lemma PumpDelivers(cfg: Config, p: Paper, u: Update)
    requires Idle(p.oms) && p.venue.connected && p.venue.inbound != [] && ParseUpdate(p.venue.inbound[0]) == Some(u)
    ensures var p', m := PaperStep(cfg, p, Pump), p.venue.inbound[0];
            && p'.oms == Deliver(p.oms.(received := p.oms.received + 1), u, SinkAnswer(p.oms, m))
            && p'.venue == p.venue.(inbound := p.venue.inbound[1..]) && p'.places == p.places
            && p'.threatened == p.threatened && p'.settled == (if m.FillMessage? then p.settled + 1 else p.settled)
  {
  }

  lemma DeliveredParts(s: State, u: Update, accepts: bool)
    ensures var s' := Deliver(s.(received := s.received + 1), u, accepts);
            && s'.core == Apply(s.core, u).0 && Line(s') == Line(s) && s'.staged == s.staged
            && s'.published
               == (if OutcomeOf(s.core, u) == Applied then s.published + [Apply(s.core, u).1] else s.published)
  {
  }

  lemma PumpKeepsInv(cfg: Config, p: Paper, sure: bool)
    requires Inv(p, sure)
    ensures Inv(PaperStep(cfg, p, Pump), sure)
  {
    if Idle(p.oms) && p.venue.connected && p.venue.inbound != [] {
      S.ReceiptAgrees(PartsOf(p), sure);
      PumpReceives(cfg, p, ParseUpdate(p.venue.inbound[0]).value);
    }
  }

  // ---------------------------------------------------------------- whole runs

  lemma StepKeepsInv(cfg: Config, p: Paper, m: Move, sure: bool)
    requires Inv(p, sure) && Spared(PaperStep(cfg, p, m), sure) && (sure ==> !m.Close?)
    ensures Inv(PaperStep(cfg, p, m), sure)
  {
    match m
    case Submit(x) => SubmitKeepsInv(cfg, p, x, sure);
    case Gate => GateKeepsInv(cfg, p, sure);
    case Check(snapshot) => CheckKeepsInv(cfg, p, snapshot, sure);
    case Dispatch => DispatchKeepsInv(cfg, p, sure);
    case Pump => PumpKeepsInv(cfg, p, sure);
    case _ => MoveKeepsInv(cfg, p, m, sure);
  }

  /** Nothing sent is unsent, and a place once threatened stays so. */
  lemma HistoryGrows(cfg: Config, p: Paper, m: Move)
    ensures p.places <= PaperStep(cfg, p, m).places && p.threatened <= PaperStep(cfg, p, m).threatened
  {
  }

  predicate StaysConnected(p: Paper, moves: seq<Move>) {
    p.venue.connected && forall i :: 0 <= i < |moves| ==> !moves[i].Close?
  }

  lemma {:induction false} InvAlways(cfg: Config, p: Paper, moves: seq<Move>, sure: bool)
    requires Begins(p) && (sure ==> StaysConnected(p, moves)) && Spared(PaperRun(cfg, p, moves), sure)
    ensures Inv(PaperRun(cfg, p, moves), sure)
  {
    if moves == [] {
      InvAtStart(p, sure);
    } else {
      var last := |moves| - 1;
      var q := PaperRun(cfg, p, moves[..last]);
      HistoryGrows(cfg, q, moves[last]);
      assert Spared(q, sure) by {
        assert forall i :: 0 <= i < |q.places| ==> PaperRun(cfg, p, moves).places[i] == q.places[i];
      }
      InvAlways(cfg, p, moves[..last], sure);
      StepKeepsInv(cfg, q, moves[last], sure);
    }
  }

  lemma InvAtStart(p: Paper, sure: bool)
    requires Begins(p) && (sure ==> p.venue.connected)
    ensures Inv(p, sure)
  {
    assert p.places[..0] == [] && p.places[0..] == [];
    assert Line(p.oms) == [];
  }

  /** At the end of a run: what became of a sent place. */
  predicate IsFilled(orders: map<string, Order>, x: Intent) {
    && x.clientId in orders && orders[x.clientId].status == InFilled
    && orders[x.clientId].filled == orders[x.clientId].requested == x.qty
  }

  predicate IsRejected(orders: map<string, Order>, x: Intent) {
    x.clientId in orders && orders[x.clientId].status == InRejected && orders[x.clientId].requested == x.qty
  }

  lemma InvAtEnd(q: Paper, sure: bool)
    requires Inv(q, sure) && q.venue.inbound == []
    ensures forall i :: 0 <= i < |q.places| ==> Closed(q.oms.core.orders, q.threatened, sure, q.places[i])
    ensures forall market ::
      PositionAt(LedgerOf(q.oms), Key(Kalshi, market)).net == SignedSum(q.places, q.threatened, market)
  {
    assert q.places[q.settled..] == [];
    assert q.places[..q.settled] == q.places;
    forall market
      ensures PositionAt(LedgerOf(q.oms), Key(Kalshi, market)).net == SignedSum(q.places, q.threatened, market)
    {
      assert Net(q.oms.published, market) == SignedSum(q.places, q.threatened, market);
    }
  }

  /** What the places of one market asked for on some sides, the threatened ones left out. */
  function PlacedQty(places: seq<Intent>, threatened: set<string>, market: string, sides: set<Side>): int {
    if places == [] then 0
    else
      var x := places[|places| - 1];
      PlacedQty(places[..|places| - 1], threatened, market, sides)
      + if x.market == market && x.clientId !in threatened && x.side in sides then x.qty else 0
  }

  lemma {:induction false} SumBySides(places: seq<Intent>, threatened: set<string>, market: string)
    ensures SignedSum(places, threatened, market)
            == PlacedQty(places, threatened, market, {Buy, Bid}) - PlacedQty(places, threatened, market, {Sell, Ask})
  {
    if places != [] {
      SumBySides(places[..|places| - 1], threatened, market);
    }
  }

  /**
   In every run in which the venue stays connected, whenever its queue is empty: a sent place is Filled for all it asked
   if no cancel with its id was under way when it was submitted, and Rejected otherwise; and each market's net in the
   ledger is what the former bought less what they sold.
   */
  lemma ConnectedRunIsExact(cfg: Config, p: Paper, moves: seq<Move>)
    requires Begins(p) && StaysConnected(p, moves) && PaperRun(cfg, p, moves).venue.inbound == []
    ensures var q := PaperRun(cfg, p, moves);
            && (forall i :: 0 <= i < |q.places| ==>
                  if q.places[i].clientId in q.threatened then IsRejected(q.oms.core.orders, q.places[i])
                  else IsFilled(q.oms.core.orders, q.places[i]))
            && (forall market :: PositionAt(LedgerOf(q.oms), Key(Kalshi, market)).net
                  == PlacedQty(q.places, q.threatened, market, {Buy, Bid})
                     - PlacedQty(q.places, q.threatened, market, {Sell, Ask}))
  {
    var q := PaperRun(cfg, p, moves);
    InvAlways(cfg, p, moves, true);
    InvAtEnd(q, true);
    forall market
      ensures PositionAt(LedgerOf(q.oms), Key(Kalshi, market)).net
              == PlacedQty(q.places, q.threatened, market, {Buy, Bid})
                 - PlacedQty(q.places, q.threatened, market, {Sell, Ask})
    {
      SumBySides(q.places, q.threatened, market);
    }
  }

  /** So every sent place is filled if and only if none was submitted while a cancel with its id was under way. */
  lemma AllFilledIffNoneThreatened(cfg: Config, p: Paper, moves: seq<Move>)
    requires Begins(p) && StaysConnected(p, moves) && PaperRun(cfg, p, moves).venue.inbound == []
    ensures var q := PaperRun(cfg, p, moves);
            (forall i :: 0 <= i < |q.places| ==> IsFilled(q.oms.core.orders, q.places[i]))
            <==> (forall i :: 0 <= i < |q.places| ==> q.places[i].clientId !in q.threatened)
  {
    ConnectedRunIsExact(cfg, p, moves);
  }

  lemma {:induction false} SumOfUnthreatened(places: seq<Intent>, threatened: set<string>, market: string)
    requires forall i :: 0 <= i < |places| ==> places[i].clientId !in threatened
    ensures SignedSum(places, threatened, market) == SignedSum(places, {}, market)
  {
    if places != [] {
      SumOfUnthreatened(places[..|places| - 1], threatened, market);
    }
  }

  /**
   In every run, with the venue coming and going as it likes: if no sent place was submitted while a cancel with its id
   was under way, then whenever the venue's queue is empty every sent place is Filled for all it asked, and each
   market's net in the ledger is what the places sent there bought less what they sold.
   */
  lemma PaperRunAgrees(cfg: Config, p: Paper, moves: seq<Move>)
    requires Begins(p) && PaperRun(cfg, p, moves).venue.inbound == []
    requires var q := PaperRun(cfg, p, moves); forall i :: 0 <= i < |q.places| ==> q.places[i].clientId !in q.threatened
    ensures var q := PaperRun(cfg, p, moves);
            && (forall i :: 0 <= i < |q.places| ==> IsFilled(q.oms.core.orders, q.places[i]))
            && (forall market :: PositionAt(LedgerOf(q.oms), Key(Kalshi, market)).net
                  == PlacedQty(q.places, {}, market, {Buy, Bid}) - PlacedQty(q.places, {}, market, {Sell, Ask}))
  {
    var q := PaperRun(cfg, p, moves);
    InvAlways(cfg, p, moves, false);
    InvAtEnd(q, false);
    forall market
      ensures PositionAt(LedgerOf(q.oms), Key(Kalshi, market)).net
              == PlacedQty(q.places, {}, market, {Buy, Bid}) - PlacedQty(q.places, {}, market, {Sell, Ask})
    {
      SumOfUnthreatened(q.places, q.threatened, market);
      SumBySides(q.places, {}, market);
    }
  }
}
