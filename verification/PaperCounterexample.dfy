/** Why paper runs must not cancel under the id of an order placed later: a run where that breaks the agreement. */
module PaperCounterexample {
  import opened MarketTypes
  import opened OmsTypes
  import opened OrderCore
  import opened OrderCoreProperties
  import opened KalshiAdapter
  import opened OmsMachine
  import opened PaperVenue
  import opened PaperMachine
  import opened OrderManager
  import PaperTheorem

  const NO_LIMITS := Config(GlobalRiskConfig(0, 0, 0, 0), PortfolioRiskConfig(0, 0, 0, false), false)

  /** A paper state between two rounds of the worker, or within one with `local` still to go. */
  predicate At(q: Paper, orders: map<string, Order>, local: seq<Intent>, queue: seq<Intent>, inbound: seq<Message>,
               places: seq<Intent>) {
    && q.oms.hand.Empty? && q.oms.staged == [] && q.venue.connected && q.venue.autoFill
    && q.oms.core.orders == orders && q.oms.local == local && q.oms.queue == queue
    && q.venue.inbound == inbound && q.places == places
  }

  lemma SubmitAt(q: Paper, orders: map<string, Order>, queue: seq<Intent>, inbound: seq<Message>, x: Intent)
    returns (q': Paper)
    requires At(q, orders, [], queue, inbound, []) && Supports(x) && PolicyCheck(q.oms.core, x).None?
    ensures q' == PaperStep(NO_LIMITS, q, Submit(x))
    ensures At(q', Track(q.oms.core, q.oms.requestIds + 1, x).0.orders, [], queue + [x], inbound, [])
  {
    q' := PaperStep(NO_LIMITS, q, Submit(x));
    SubmittedIsSubmit(NO_LIMITS, q, x);
  }

  /** Without limits the next intent goes straight to the venue. */
  lemma HandleAt(q: Paper, x: Intent, rest: seq<Intent>) returns (q': Paper)
    requires q.oms.hand.Empty? && q.oms.local == [x] + rest
    ensures q' == HandleNext(NO_LIMITS, q) == Dispatched(q.(oms := q.oms.(local := rest)), x)
  {
    q' := HandleNext(NO_LIMITS, q);
    HandledIsHandleNext(NO_LIMITS, q, x, rest);
  }

  lemma RunHandles(p: Paper, moves: seq<Move>, q: Paper) returns (moves': seq<Move>)
    requires q == PaperRun(NO_LIMITS, p, moves)
    ensures PaperRun(NO_LIMITS, p, moves') == HandleNext(NO_LIMITS, q) && moves <= moves'
  {
    RunExtends(NO_LIMITS, p, moves, Take);
    RunExtends(NO_LIMITS, p, moves + [Take], Gate);
    RunExtends(NO_LIMITS, p, moves + [Take] + [Gate], Check(None));
    RunExtends(NO_LIMITS, p, moves + [Take] + [Gate] + [Check(None)], Dispatch);
    moves' := moves + [Take] + [Gate] + [Check(None)] + [Dispatch];
  }

  lemma SwapAt(q: Paper, orders: map<string, Order>, queue: seq<Intent>, inbound: seq<Message>) returns (q': Paper)
    requires At(q, orders, [], queue, inbound, [])
    ensures q' == PaperStep(NO_LIMITS, q, Swap) && At(q', orders, queue, [], inbound, []) && q'.oms.core == q.oms.core
  {
    q' := PaperStep(NO_LIMITS, q, Swap);
  }

  /** Receiving one message: the queue shrinks, and terminal orders stay as they are. */
  lemma PumpAt(q: Paper, orders: map<string, Order>, inbound: seq<Message>, places: seq<Intent>, m: Message,
               u: Update)
    returns (q': Paper)
    requires At(q, orders, [], [], [m] + inbound, places) && ParseUpdate(m) == Some(u)
    ensures q' == PaperStep(NO_LIMITS, q, Pump)
    ensures At(q', Apply(q.oms.core, u).0.orders, [], [], inbound, places)
  {
    q' := PaperStep(NO_LIMITS, q, Pump);
    PumpedIsPump(NO_LIMITS, q, m);
    assert ([m] + inbound)[1..] == inbound;
  }

  // A place that can be tracked but not sent, a cancel of it under the id "b", and a place with that id.
  const FIRST := Intent(Kalshi, Place, "a", None, None, "M", Buy, 0, Some(1))
  const CANCEL := Intent(Kalshi, Cancel, "b", Some("a"), None, "M", Buy, 0, None)
  const SECOND := Intent(Kalshi, Place, "b", None, None, "M", Buy, 1, Some(1))

  predicate HasFirst(orders: map<string, Order>) {
    "a" in orders && !IsTerminal(orders["a"].status) && "b" !in orders
  }

  lemma FirstTracked(c: Core, requestId: nat)
    requires c.orders == map[]
    ensures PolicyCheck(c, FIRST).None? && HasFirst(Track(c, requestId, FIRST).0.orders)
  {
    assert "a"[0] != "b"[0];
  }

  lemma CancelTracked(c: Core, requestId: nat)
    requires HasFirst(c.orders)
    ensures PolicyCheck(c, CANCEL).None? && Track(c, requestId, CANCEL).0.orders == c.orders
  {
  }

  lemma SecondTracked(c: Core, requestId: nat)
    requires HasFirst(c.orders)
    ensures PolicyCheck(c, SECOND).None?
    ensures var orders := Track(c, requestId, SECOND).0.orders;
            "b" in orders && orders["b"].status == InPending && orders["b"].requested == 1
  {
  }

  lemma ConnectAndTrack(p: Paper) returns (q: Paper, moves: seq<Move>, orders: map<string, Order>)
    requires Begins(p)
    ensures q == PaperRun(NO_LIMITS, p, moves) && |moves| == 2 && At(q, orders, [], [FIRST], [], []) && HasFirst(orders)
  {
    moves := [];
    RunExtends(NO_LIMITS, p, moves, Connect);
    var q0 := PaperStep(NO_LIMITS, p, Connect);
    assert At(q0, map[], [], [], [], []);
    FirstTracked(q0.oms.core, q0.oms.requestIds + 1);
    q := SubmitAt(q0, map[], [], [], FIRST);
    orders := Track(q0.oms.core, q0.oms.requestIds + 1, FIRST).0.orders;
    assert [] + [FIRST] == [FIRST];
    moves := moves + [Connect];
    RunExtends(NO_LIMITS, p, moves, Submit(FIRST));
    moves := moves + [Submit(FIRST)];
  }

  lemma SubmitBoth(p: Paper) returns (q: Paper, moves: seq<Move>, orders: map<string, Order>)
    requires Begins(p)
    ensures q == PaperRun(NO_LIMITS, p, moves) && |moves| == 4 && moves[2] == Submit(CANCEL)
    ensures At(q, orders, [FIRST, CANCEL], [], [], []) && HasFirst(orders)
  {
    var q1, q2;
    q1, moves, orders := ConnectAndTrack(p);
    q2 := SubmitCancel(q1, orders);
    RunExtends(NO_LIMITS, p, moves, Submit(CANCEL));
    moves := moves + [Submit(CANCEL)];
    q := SwapAt(q2, orders, [FIRST, CANCEL], []);
    RunExtends(NO_LIMITS, p, moves, Swap);
    moves := moves + [Swap];
  }

  lemma SubmitCancel(q: Paper, orders: map<string, Order>) returns (q': Paper)
    requires At(q, orders, [], [FIRST], [], []) && HasFirst(orders)
    ensures q' == PaperStep(NO_LIMITS, q, Submit(CANCEL)) && At(q', orders, [], [FIRST, CANCEL], [], [])
  {
    CancelTracked(q.oms.core, q.oms.requestIds + 1);
    q' := SubmitAt(q, orders, [FIRST], [], CANCEL);
    assert [FIRST] + [CANCEL] == [FIRST, CANCEL];
  }

  predicate IsRejectOfB(m: Message) {
    m.RejectMessage? && ParseUpdate(m).Some? && ParseUpdate(m).value.clientId == "b"
  }

  lemma HandleBoth(p: Paper, q: Paper, moves: seq<Move>, orders: map<string, Order>)
    returns (q': Paper, moves': seq<Move>, reject: Message)
    requires q == PaperRun(NO_LIMITS, p, moves) && At(q, orders, [FIRST, CANCEL], [], [], [])
    ensures q' == PaperRun(NO_LIMITS, p, moves') && moves <= moves' && At(q', orders, [], [], [reject], [])
    ensures IsRejectOfB(reject)
  {
    var q1 := HandleFirst(q, orders);
    var moves1 := RunHandles(p, moves, q);
    q', reject := HandleCancel(q1, orders);
    moves' := RunHandles(p, moves1, q1);
  }

  lemma HandleFirst(q: Paper, orders: map<string, Order>) returns (q': Paper)
    requires At(q, orders, [FIRST, CANCEL], [], [], [])
    ensures q' == HandleNext(NO_LIMITS, q) && At(q', orders, [CANCEL], [], [], [])
  {
    assert [FIRST, CANCEL] == [FIRST] + [CANCEL];
    q' := HandleAt(q, FIRST, [CANCEL]);
    assert BuildRequest(FIRST).None?;
  }

  lemma HandleCancel(q: Paper, orders: map<string, Order>) returns (q': Paper, reject: Message)
    requires At(q, orders, [CANCEL], [], [], [])
    ensures q' == HandleNext(NO_LIMITS, q) && At(q', orders, [], [], [reject], []) && IsRejectOfB(reject)
  {
    assert [CANCEL] == [CANCEL] + [];
    q' := HandleAt(q, CANCEL, []);
    OtherRoundTrip(q.venue, CANCEL);
    reject := q'.venue.inbound[0];
    assert q'.venue.inbound == [reject];
  }

  predicate Ended(orders: map<string, Order>) {
    "b" in orders && orders["b"].status == InRejected && orders["b"].requested == 1
  }

  /** The reject of the cancel ends the order that now has its id. */
  lemma PlaceAndReject(p: Paper, q: Paper, moves: seq<Move>, orders: map<string, Order>, reject: Message)
    returns (q': Paper, moves': seq<Move>, orders': map<string, Order>)
    requires q == PaperRun(NO_LIMITS, p, moves) && HasFirst(orders) && At(q, orders, [], [], [reject], [])
    requires IsRejectOfB(reject)
    ensures q' == PaperRun(NO_LIMITS, p, moves') && moves + [Submit(SECOND)] <= moves'
    ensures At(q', orders', [SECOND], [], [], []) && Ended(orders')
  {
    SecondTracked(q.oms.core, q.oms.requestIds + 1);
    var q1 := SubmitAt(q, orders, [], [reject], SECOND);
    RunExtends(NO_LIMITS, p, moves, Submit(SECOND));
    assert [] + [SECOND] == [SECOND];
    var tracked := q1.oms.core.orders;
    q', orders' := RejectSecond(q1, tracked, reject);
    moves' := moves + [Submit(SECOND)] + [Pump] + [Swap];
    RunExtends(NO_LIMITS, p, moves + [Submit(SECOND)], Pump);
    RunExtends(NO_LIMITS, p, moves + [Submit(SECOND)] + [Pump], Swap);
  }

  lemma RejectSecond(q: Paper, orders: map<string, Order>, reject: Message)
    returns (q': Paper, orders': map<string, Order>)
    requires At(q, orders, [], [SECOND], [reject], []) && IsRejectOfB(reject)
    requires "b" in orders && orders["b"].status == InPending && orders["b"].requested == 1
    ensures q' == PaperStep(NO_LIMITS, PaperStep(NO_LIMITS, q, Pump), Swap)
    ensures At(q', orders', [SECOND], [], [], []) && Ended(orders')
  {
    PumpedIsPump(NO_LIMITS, q, reject);
    var q1 := PaperStep(NO_LIMITS, q, Pump);
    orders' := Apply(q.oms.core, ParseUpdate(reject).value).0.orders;
    assert [reject][1..] == [];
    q' := SwapAt(q1, orders', [SECOND], []);
  }

  lemma StaysEnded(c: Core, u: Update)
    requires Ended(c.orders)
    ensures Ended(Apply(c, u).0.orders)
  {
    StepSettles(c, Report(u), "b");
  }

  /** The place goes out all the same; its ack and fill find the order rejected. */
  lemma SendSecond(q: Paper, orders: map<string, Order>) returns (q': Paper, ack: Message, fill: Message)
    requires At(q, orders, [SECOND], [], [], [])
    ensures q' == HandleNext(NO_LIMITS, q) && At(q', orders, [], [], [ack, fill], [SECOND])
    ensures ParseUpdate(ack).Some? && ParseUpdate(fill).Some?
  {
    assert [SECOND] == [SECOND] + [];
    q' := HandleAt(q, SECOND, []);
    PlaceRoundTrip(q.venue, SECOND);
    ack, fill := q'.venue.inbound[0], q'.venue.inbound[1];
    assert q'.venue.inbound == [ack, fill];
  }

  lemma ReceiveBoth(q: Paper, orders: map<string, Order>, ack: Message, fill: Message) returns (q': Paper)
    requires At(q, orders, [], [], [ack, fill], [SECOND]) && Ended(orders) && ParseUpdate(ack).Some?
    requires ParseUpdate(fill).Some?
    ensures q' == PaperStep(NO_LIMITS, PaperStep(NO_LIMITS, q, Pump), Pump)
    ensures q'.venue.inbound == [] && q'.places == [SECOND] && Ended(q'.oms.core.orders)
  {
    assert [ack, fill] == [ack] + [fill] && [fill] == [fill] + [];
    var q1 := PumpAt(q, orders, [fill], [SECOND], ack, ParseUpdate(ack).value);
    StaysEnded(q.oms.core, ParseUpdate(ack).value);
    q' := PumpAt(q1, q1.oms.core.orders, [], [SECOND], fill, ParseUpdate(fill).value);
    StaysEnded(q1.oms.core, ParseUpdate(fill).value);
  }

  /** A cancel under the id of a later place: at the end the venue's queue is empty and a sent place is Rejected. */
  lemma CancelAheadOfPlaceBreaksAgreement(p: Paper) returns (moves: seq<Move>, i: nat, j: nat)
    requires Begins(p)
    ensures i < j < |moves| && moves[i] == Submit(CANCEL) && moves[j] == Submit(SECOND)
    ensures var q := PaperRun(NO_LIMITS, p, moves);
            q.venue.inbound == [] && q.places == [SECOND] && PaperTheorem.IsRejected(q.oms.core.orders, SECOND)
  {
    var q1, moves1, orders1 := SubmitBoth(p);
    var q2, moves2, reject := HandleBoth(p, q1, moves1, orders1);
    var q3, moves3, orders3 := PlaceAndReject(p, q2, moves2, orders1, reject);
    i, j := 2, |moves2|;
    assert moves3[i] == Submit(CANCEL) && moves3[j] == Submit(SECOND);
    moves := FinishSecond(p, q3, moves3, orders3);
    assert moves[i] == moves3[i] && moves[j] == moves3[j];
  }

  lemma FinishSecond(p: Paper, q: Paper, moves: seq<Move>, orders: map<string, Order>) returns (moves': seq<Move>)
    requires q == PaperRun(NO_LIMITS, p, moves) && At(q, orders, [SECOND], [], [], []) && Ended(orders)
    ensures moves <= moves'
    ensures var q' := PaperRun(NO_LIMITS, p, moves');
            q'.venue.inbound == [] && q'.places == [SECOND] && PaperTheorem.IsRejected(q'.oms.core.orders, SECOND)
  {
    var q1, ack, fill := SendSecond(q, orders);
    var moves1 := RunHandles(p, moves, q);
    var q2 := ReceiveBoth(q1, orders, ack, fill);
    RunExtends(NO_LIMITS, p, moves1, Pump);
    RunExtends(NO_LIMITS, p, moves1 + [Pump], Pump);
    moves' := moves1 + [Pump] + [Pump];
  }
}
