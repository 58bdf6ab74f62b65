/**
 What a restart does to the results about runs. `start()` resets the counters and the core and keeps the outbound queue.
 So intents left in the queue have no tracked order any more, orders live at the venue are forgotten, and request ids
 run on. This module says exactly when the limits and the counter equations survive that.
 */
module OmsRestart {
  import opened MarketTypes
  import opened OmsTypes
  import opened MapTotals
  import opened RiskGates
  import opened OrderCore
  import opened OrderCoreProperties
  import opened KalshiAdapter
  import opened OmsMachine
  import opened OmsExposure
  import opened OmsConservation
  import OrderFills

  /** The state `start()` leaves, the worker of the earlier run having ended between two rounds. */
  function Restarted(s: State): State {
    START.(requestIds := s.requestIds, staged := s.staged, uncounted := s.uncounted, queue := s.queue,
           published := s.published)
  }

  // ---------------------------------------------------------------- the counters

  lemma RestartGaps(s: State, r: State)
    requires r == Restarted(s)
    ensures IntentGap(r) == |s.queue| - s.uncounted
    ensures RequestGap(r) == s.requestIds - (|s.staged| + s.uncounted)
    ensures UpdateGap(r) == 0
    ensures DropGap(r) == 0
  {
  }

  /**
   At every quiescent point of every run after a restart: the intents' equation holds if and only if the queue held
   nothing but intents not yet counted, and that of the request ids if and only if all ids so far belonged to
   submissions still under way. The updates' and the drops' equations always hold.
   */
  lemma CountersAgreeAfterRestartIff(cfg: Config, s: State, actions: seq<Action>)
    requires Quiescent(Run(cfg, Restarted(s), actions))
    ensures var t := Run(cfg, Restarted(s), actions);
            && (IntentsAgree(t) <==> |s.queue| == s.uncounted)
            && (RequestsAgree(t) <==> s.requestIds == |s.staged| + s.uncounted)
            && UpdatesAgree(t) && DropsAgree(t)
  {
    RestartGaps(s, Restarted(s));
    GapsDecide(cfg, Restarted(s), actions);
  }

  lemma GapsDecide(cfg: Config, r: State, actions: seq<Action>)
    requires Quiescent(Run(cfg, r, actions))
    ensures var t := Run(cfg, r, actions);
            && (IntentsAgree(t) <==> IntentGap(r) == 0) && (RequestsAgree(t) <==> RequestGap(r) == 0)
            && (UpdatesAgree(t) <==> UpdateGap(r) == 0) && (DropsAgree(t) <==> DropGap(r) == 0)
  {
    RunKeepsGaps(cfg, r, actions);
  }

  /** From a queue `q` and nothing else, the intents' equation holds if and only if `q` is empty. */
  lemma CountersAgreeFromQueueIff(cfg: Config, q: seq<Intent>, actions: seq<Action>)
    requires Quiescent(Run(cfg, START.(queue := q), actions))
    ensures IntentsAgree(Run(cfg, START.(queue := q), actions)) <==> q == []
  {
    var s := START.(queue := q);
    assert Restarted(s) == s;
    CountersAgreeAfterRestartIff(cfg, s, actions);
  }

  // ---------------------------------------------------------------- reachable states

  /** Some run through the modelled adapter leads from one state to the other. */
  ghost predicate Reaches(cfg: Config, s: State, t: State) {
    exists actions :: FromAdapter(actions) && Run(cfg, s, actions) == t
  }

  lemma ReachesItself(cfg: Config, s: State)
    ensures Reaches(cfg, s, s)
  {
    assert FromAdapter([]) && Run(cfg, s, []) == s;
  }

  lemma ReachStep(cfg: Config, s: State, t: State, a: Action)
    requires Reaches(cfg, s, t) && !a.Notice?
    ensures Reaches(cfg, s, Step(cfg, t, a))
  {
    var actions :| FromAdapter(actions) && Run(cfg, s, actions) == t;
    RunSnoc(cfg, s, actions, a);
    assert FromAdapter(actions + [a]);
  }

  // ---------------------------------------------------------------- what is at the venue after a restart

  /** Sent since the restart and not known to have ended. */
  function NotEnded(t: State): set<string> {
    set id | id in t.sent && (id in t.core.orders ==> !IsTerminal(t.core.orders[id].status))
  }

  /** Open quantity of such an order: as tracked, or else as the order it was submitted as. */
  function QtyOf(s: State, t: State, id: string): int {
    if id in t.core.orders then Outstanding(t.core.orders[id])
    else if id in s.core.orders then Max(0, s.core.orders[id].requested)
    else 0
  }

  ghost function SentSince(s: State, t: State): map<string, int> {
    map id | id in NotEnded(t) :: QtyOf(s, t, id)
  }

  /** The limits, for the orders the restart forgot and those sent since, `s` being the state before the restart. */
  ghost predicate WithinAtVenue(g: GlobalRiskConfig, s: State, t: State)
    requires s.sent <= s.core.orders.Keys
  {
    var forgotten := Live(s.core.orders, s.sent);
    && Within(g.maxActiveGlobal, |forgotten| + |NotEnded(t)|)
    && Within(g.maxOutstandingGlobal, OpenQty(s.core.orders, forgotten) + Total(SentSince(s, t)))
  }

  /** Some intent in the queue, or about to be, can still be sent. */
  predicate LeavesIntents(cfg: Config, s: State) {
    exists x :: x in Waiting(s) && Sends(cfg, x)
  }

  /** Some sent order is still live. */
  predicate LeavesOrders(s: State)
    requires s.sent <= s.core.orders.Keys
  {
    Live(s.core.orders, s.sent) != {}
  }

  // ---------------------------------------------------------------- when nothing is left over

  lemma {:induction false} TotalIsOpenQty(orders: map<string, Order>, ids: set<string>, w: map<string, int>)
    requires ids <= orders.Keys && w == map id | id in ids :: Outstanding(orders[id])
    ensures Total(w) == OpenQty(orders, ids)
    decreases ids
  {
    if ids == {} {
      assert w.Keys == {};
    } else {
      var id :| id in ids;
      TotalRemove(w, id);
      SplitOpenQty(orders, ids, id);
      assert w - {id} == map x | x in ids - {id} :: Outstanding(orders[x]);
      TotalIsOpenQty(orders, ids - {id}, w - {id});
    }
  }

  lemma RestartIsSafe(cfg: Config, s: State)
    requires Idle(s) && !LeavesIntents(cfg, s)
    ensures Safe(cfg, Restarted(s), "")
  {
    var r := Restarted(s);
    assert Waiting(r) == Waiting(s);
    assert SentExposure(map[], {}, "") == NOTHING;
  }

  lemma TrackedAtVenue(cfg: Config, s: State, t: State)
    requires Safe(cfg, t, "")
    ensures NotEnded(t) == Live(t.core.orders, t.sent)
    ensures Total(SentSince(s, t)) == OpenQty(t.core.orders, Live(t.core.orders, t.sent))
  {
    assert NotEnded(t) == Live(t.core.orders, t.sent);
    TotalIsOpenQty(t.core.orders, Live(t.core.orders, t.sent), SentSince(s, t));
  }

  /**
   With no sendable intent in the queue and no live order at the venue, the limits hold in every run after the
   restart.
   */
  lemma LimitsSurviveCleanRestart(cfg: Config, s: State, actions: seq<Action>)
    requires Idle(s) && s.sent <= s.core.orders.Keys && !LeavesIntents(cfg, s) && !LeavesOrders(s)
    ensures WithinAtVenue(cfg.globalRisk, s, Run(cfg, Restarted(s), actions))
  {
    var t := Run(cfg, Restarted(s), actions);
    RestartIsSafe(cfg, s);
    RunKeepsSafe(cfg, Restarted(s), actions, "");
    TrackedAtVenue(cfg, s, t);
    SafeIsWithin(cfg, t);
  }

  // ---------------------------------------------------------------- leftovers go out unchecked

  /** A worker on its way through leftovers: nothing is tracked, `local` is still to go. */
  predicate Draining(t: State, local: seq<Intent>) {
    t.core.orders == map[] && t.staged == [] && t.queue == [] && t.hand.Empty? && t.local == local
  }

  lemma EmptySnapshot(market: string, skip: string)
    ensures RiskSnapshot(map[], market, skip) == NOTHING
  {
  }

  lemma TurnDownOfUntracked(t: State, gate: Event, reason: string)
    requires t.hand.Holding? && t.core.orders == map[] && (gate.GlobalRejection? || gate.PortfolioRejection?)
    ensures var t' := TurnDown(t, gate, reason, true);
            && t'.core.orders == map[] && t'.hand.Empty? && t'.sent == t.sent && t'.local == t.local
            && t'.staged == t.staged && t'.queue == t.queue && t'.sentCount == t.sentCount
            && t'.submitted == t.submitted && t'.uncounted == t.uncounted
  {
  }

  /**
   The next leftover is sent exactly when it can be built and fits the limits on its own: nothing tracked is in its
   way.
   */
  lemma HandleLeftover(cfg: Config, s: State, t: State, x: Intent, rest: seq<Intent>) returns (t': State)
    requires Reaches(cfg, s, t) && Draining(t, [x] + rest)
    ensures Reaches(cfg, s, t') && Draining(t', rest) && t'.submitted == t.submitted && t'.uncounted == t.uncounted
    ensures t'.sent == t.sent + if Sends(cfg, x) then {x.clientId} else {}
    ensures Sends(cfg, x) ==> t'.sentCount == t.sentCount + 1
  {
    var t1 := Step(cfg, t, TakeNext);
    ReachStep(cfg, s, t, TakeNext);
    assert t1.local == rest && t1.hand == Holding(x, Taken);
    EmptySnapshot(x.market, x.clientId);
    var t2 := Step(cfg, t1, GlobalGate(true));
    ReachStep(cfg, s, t1, GlobalGate(true));
    if FitsAlone(cfg, x) {
      t' := SendLeftover(cfg, s, t2, x, rest);
    } else {
      TurnDownOfUntracked(t1, GlobalRejection, GlobalRejectName(GlobalDecision(t1.core, cfg.globalRisk, x).value));
      t' := t2;
    }
  }

  /** A snapshot that lets an order pass: it would end up flat, and the floor is kept. */
  function PassingSnapshot(cfg: Config, x: Intent): PortfolioRiskSnapshot {
    PortfolioRiskSnapshot(-SignedIntentQty(x), Abs(SignedIntentQty(x)), cfg.portfolioRisk.minRealizedPnl)
  }

  /** What the portfolio gate is given: nothing without a provider, else an answer the provider might give. */
  function Ask(cfg: Config, x: Intent): Option<PortfolioRiskSnapshot> {
    if cfg.provided then Some(PassingSnapshot(cfg, x)) else None
  }

  lemma AskedPasses(cfg: Config, x: Intent)
    ensures Creates(x) ==> (PortfolioDecision(cfg, x, Ask(cfg, x)).None? <==> !cfg.provided || SignedIntentQty(x) != 0)
    ensures !Creates(x) ==> PortfolioDecision(cfg, x, Ask(cfg, x)).None?
    ensures Sends(cfg, x) ==> PortfolioDecision(cfg, x, Ask(cfg, x)).None?
    ensures Creates(x) && BuildRequest(x).Some? && FitsAlone(cfg, x) && !Sends(cfg, x) ==>
              PortfolioDecision(cfg, x, Ask(cfg, x)).Some?
  {
  }

  lemma SendLeftover(cfg: Config, s: State, t: State, x: Intent, rest: seq<Intent>) returns (t': State)
    requires Reaches(cfg, s, t) && FitsAlone(cfg, x) && t.hand == Holding(x, PassedGlobal)
    requires Draining(t.(hand := Empty), rest)
    ensures Reaches(cfg, s, t') && Draining(t', rest) && t'.submitted == t.submitted && t'.uncounted == t.uncounted
    ensures t'.sent == t.sent + if Sends(cfg, x) then {x.clientId} else {}
    ensures Sends(cfg, x) ==> t'.sentCount == t.sentCount + 1
  {
    AskedPasses(cfg, x);
    var t1 := Step(cfg, t, PortfolioGate(Ask(cfg, x), true));
    ReachStep(cfg, s, t, PortfolioGate(Ask(cfg, x), true));
    var decision := PortfolioDecision(cfg, x, Ask(cfg, x));
    if decision.Some? {
      TurnDownOfUntracked(t, PortfolioRejection, PortfolioRejectName(decision.value));
      t' := t1;
    } else {
      t' := Step(cfg, t1, Send(true));
      ReachStep(cfg, s, t1, Send(true));
    }
  }

  /** The ids of the sendable intents of a sequence. */
  function SendableIds(cfg: Config, xs: seq<Intent>): set<string> {
    set i | 0 <= i < |xs| && Sends(cfg, xs[i]) :: xs[i].clientId
  }

  lemma {:induction false} HandleLeftovers(cfg: Config, s: State, t: State, xs: seq<Intent>) returns (t': State)
    requires Reaches(cfg, s, t) && Draining(t, xs)
    ensures Reaches(cfg, s, t') && Draining(t', [])
    ensures t'.sent == t.sent + SendableIds(cfg, xs)
    decreases |xs|
  {
    if xs == [] {
      t' := t;
    } else {
      assert xs == [xs[0]] + xs[1..];
      var t1 := HandleLeftover(cfg, s, t, xs[0], xs[1..]);
      t' := HandleLeftovers(cfg, s, t1, xs[1..]);
      SendableSplits(cfg, xs);
    }
  }

  lemma SendableSplits(cfg: Config, xs: seq<Intent>)
    requires xs != []
    ensures SendableIds(cfg, xs) == (if Sends(cfg, xs[0]) then {xs[0].clientId} else {}) + SendableIds(cfg, xs[1..])
  {
    var rest := SendableIds(cfg, xs[1..]);
    forall id | id in SendableIds(cfg, xs) ensures (Sends(cfg, xs[0]) && id == xs[0].clientId) || id in rest {
      var i :| 0 <= i < |xs| && Sends(cfg, xs[i]) && xs[i].clientId == id;
      if i > 0 {
        assert xs[1..][i - 1] == xs[i];
      }
    }
    forall id | id in rest ensures id in SendableIds(cfg, xs) {
      var i :| 0 <= i < |xs[1..]| && Sends(cfg, xs[1..][i]) && xs[1..][i].clientId == id;
      assert xs[i + 1] == xs[1..][i];
    }
  }

  /** The submissions under way put their intents into the queue. */
  lemma {:induction false} EnqueueStaged(cfg: Config, s: State, t: State) returns (t': State)
    requires Reaches(cfg, s, t)
    ensures Reaches(cfg, s, t') && t'.staged == [] && t'.queue == t.queue + t.staged
    ensures t'.core == t.core && t'.hand == t.hand && t'.local == t.local && t'.sent == t.sent
    decreases |t.staged|
  {
    if t.staged == [] {
      t' := t;
    } else {
      var t1 := Step(cfg, t, SubmitEnqueue(0));
      ReachStep(cfg, s, t, SubmitEnqueue(0));
      assert t1.staged == t.staged[1..] && t1.queue == t.queue + [t.staged[0]];
      t' := EnqueueStaged(cfg, s, t1);
      assert t1.queue + t1.staged == t.queue + t.staged;
    }
  }

  /** All leftovers of a restart are drained and every sendable one is at the venue. */
  lemma DrainLeftovers(cfg: Config, s: State) returns (t: State, left: seq<Intent>)
    requires Idle(s)
    ensures Reaches(cfg, Restarted(s), t) && Draining(t, []) && left == s.queue + s.staged
    ensures t.sent == SendableIds(cfg, left)
  {
    var r := Restarted(s);
    ReachesItself(cfg, r);
    var t1 := EnqueueStaged(cfg, r, r);
    left := s.queue + s.staged;
    var t2 := Step(cfg, t1, DrainSwap);
    ReachStep(cfg, r, t1, DrainSwap);
    t := HandleLeftovers(cfg, r, t2, left);
  }

  // ---------------------------------------------------------------- new orders up to the limit

  lemma {:induction false} LongestOf(ids: set<string>) returns (n: nat)
    ensures forall id :: id in ids ==> |id| <= n
    decreases ids
  {
    if ids == {} {
      n := 0;
    } else {
      var id :| id in ids;
      n := LongestOf(ids - {id});
      n := if n < |id| then |id| else n;
    }
  }

  lemma FreshId(ids: set<string>) returns (id: string)
    ensures id != "" && id !in ids
  {
    var n := LongestOf(ids);
    id := seq(n + 1, _ => 'a');
    assert |id| == n + 1;
  }

  /** One lot, in a market of its own. */
  function OneLot(id: string): Intent {
    Intent(Kalshi, Place, id, None, None, id, Buy, 1, Some(1))
  }

  predicate IsOneLot(o: Order, id: string) {
    o.status == InPending && o.requested == 1 && o.filled == 0 && o.market == id
  }

  /** Between two rounds: all tracked orders are sent one-lot orders, and `left` went out untracked. */
  predicate Fleet(t: State, left: set<string>, n: nat) {
    && t.staged == [] && t.queue == [] && t.local == [] && t.hand.Empty?
    && |t.core.orders.Keys| == n && t.core.orders.Keys !! left && t.sent == left + t.core.orders.Keys
    && (forall id :: id in t.core.orders ==> IsOneLot(t.core.orders[id], id))
  }

  const ONE_ELSEWHERE := GlobalRiskSnapshot(1, 0, 1, 0)

  lemma {:induction false} SumOfOnes<K>(shares: map<K, GlobalRiskSnapshot>, ids: set<K>)
    requires ids <= shares.Keys && forall id :: id in ids ==> shares[id] == ONE_ELSEWHERE
    ensures Sum(shares, ids) == GlobalRiskSnapshot(|ids|, 0, |ids|, 0)
    decreases ids
  {
    if ids != {} {
      var id :| id in ids;
      SplitSum(shares, ids, id);
      SumOfOnes(shares, ids - {id});
    }
  }

  /** What the gate sees when the next one-lot order comes up. */
  lemma FleetSnapshot(orders: map<string, Order>, id: string, o: Order)
    requires id !in orders && id != "" && forall x :: x in orders ==> IsOneLot(orders[x], x)
    ensures RiskSnapshot(orders[id := o], id, id) == GlobalRiskSnapshot(|orders|, 0, |orders|, 0)
  {
    var all := orders[id := o];
    var shares := Shares(all, id, id);
    forall x | x in orders ensures shares[x] == ONE_ELSEWHERE {
    }
    assert all.Keys - {id} == orders.Keys;
    SumOfOnes(shares, orders.Keys);
    SkippedAddsNothing(shares, all.Keys, id);
  }

  lemma SkippedAddsNothing<K>(shares: map<K, GlobalRiskSnapshot>, ids: set<K>, id: K)
    requires ids <= shares.Keys && id in ids && shares[id] == NOTHING
    ensures Sum(shares, ids) == Sum(shares, ids - {id})
  {
    SplitSum(shares, ids, id);
  }

  /** Room for one more lot on top of `n`. */
  predicate Room(g: GlobalRiskConfig, n: nat) {
    Within(g.maxActiveGlobal, n + 1) && Within(g.maxOutstandingGlobal, n + 1)
  }

  lemma RoomPasses(g: GlobalRiskConfig, n: nat, id: string)
    requires Room(g, n)
    ensures EvaluateGlobal(g, OneLot(id), GlobalRiskSnapshot(n, 0, n, 0)).None?
  {
  }

  lemma OneLotTracked(c: Core, requestId: nat, id: string)
    requires id != "" && id !in c.orders
    ensures PolicyCheck(c, OneLot(id)).None? && Supports(OneLot(id)) && BuildRequest(OneLot(id)).Some?
    ensures var o := NewOrder(c, requestId, OneLot(id));
            Track(c, requestId, OneLot(id)).0.orders == c.orders[id := o] && IsOneLot(o, id)
  {
  }

  /** Submits a one-lot order and brings it to the worker's hand. */
  lemma BringUp(cfg: Config, s: State, t: State, left: set<string>, n: nat, id: string) returns (t': State, o: Order)
    requires Reaches(cfg, s, t) && Fleet(t, left, n) && id != "" && id !in t.core.orders && id !in left
    ensures Reaches(cfg, s, t') && t'.hand == Holding(OneLot(id), Taken) && IsOneLot(o, id)
    ensures t'.core.orders == t.core.orders[id := o] && t'.sent == t.sent
    ensures t'.staged == [] && t'.queue == [] && t'.local == []
  {
    var x := OneLot(id);
    OneLotTracked(t.core, t.requestIds + 1, id);
    o := NewOrder(t.core, t.requestIds + 1, x);
    var t1 := Step(cfg, t, SubmitTrack(x));
    ReachStep(cfg, s, t, SubmitTrack(x));
    assert t1.staged == [x] && t1.core.orders == t.core.orders[id := o];
    var t2 := Enqueue(cfg, s, t1, x);
    t' := Step(cfg, t2, TakeNext);
    ReachStep(cfg, s, t2, TakeNext);
    assert [x][1..] == [];
  }

  lemma Enqueue(cfg: Config, s: State, t: State, x: Intent) returns (t': State)
    requires Reaches(cfg, s, t) && t.staged == [x] && t.queue == [] && t.local == [] && t.hand.Empty?
    ensures Reaches(cfg, s, t') && t'.staged == [] && t'.queue == [] && t'.local == [x] && t'.hand.Empty?
    ensures t'.core == t.core && t'.sent == t.sent
  {
    var t1 := Step(cfg, t, SubmitEnqueue(0));
    ReachStep(cfg, s, t, SubmitEnqueue(0));
    assert t1.staged == [] && t1.queue == [x];
    t' := Step(cfg, t1, DrainSwap);
    ReachStep(cfg, s, t1, DrainSwap);
  }

  /** The gates let it pass and it is sent. */
  lemma PassAndSend(cfg: Config, s: State, t: State, x: Intent) returns (t': State)
    requires Reaches(cfg, s, t) && t.hand == Holding(x, Taken) && Creates(x) && BuildRequest(x).Some? && Clears(cfg, x)
    requires GlobalDecision(t.core, cfg.globalRisk, x).None?
    ensures Reaches(cfg, s, t') && t'.hand.Empty? && t'.core == t.core && t'.sent == t.sent + {x.clientId}
    ensures t'.staged == t.staged && t'.queue == t.queue && t'.local == t.local
  {
    var t1 := t.(hand := Holding(x, PassedGlobal));
    assert t1 == Step(cfg, t, GlobalGate(true));
    ReachStep(cfg, s, t, GlobalGate(true));
    t' := ClearAndSend(cfg, s, t1, x);
  }

  lemma ClearAndSend(cfg: Config, s: State, t: State, x: Intent) returns (t': State)
    requires Reaches(cfg, s, t) && t.hand == Holding(x, PassedGlobal)
    requires Creates(x) && BuildRequest(x).Some? && Clears(cfg, x)
    ensures Reaches(cfg, s, t') && t'.hand.Empty? && t'.core == t.core && t'.sent == t.sent + {x.clientId}
    ensures t'.staged == t.staged && t'.queue == t.queue && t'.local == t.local
  {
    AskedPasses(cfg, x);
    var t1 := t.(hand := Holding(x, Cleared));
    assert t1 == Step(cfg, t, PortfolioGate(Ask(cfg, x), true));
    ReachStep(cfg, s, t, PortfolioGate(Ask(cfg, x), true));
    t' := Step(cfg, t1, Send(true));
    ReachStep(cfg, s, t1, Send(true));
  }

  lemma OneMore(cfg: Config, s: State, t: State, left: set<string>, n: nat) returns (t': State)
    requires Reaches(cfg, s, t) && Fleet(t, left, n) && Room(cfg.globalRisk, n)
    ensures Reaches(cfg, s, t') && Fleet(t', left, n + 1)
  {
    var id := FreshId(left + t.core.orders.Keys);
    var t1, o := BringUp(cfg, s, t, left, n, id);
    FleetSnapshot(t.core.orders, id, o);
    RoomPasses(cfg.globalRisk, n, id);
    t' := PassAndSend(cfg, s, t1, OneLot(id));
    FleetGrows(t, t', left, n, id, o);
  }

  lemma FleetGrows(t: State, t': State, left: set<string>, n: nat, id: string, o: Order)
    requires Fleet(t, left, n) && id !in t.core.orders && id !in left && IsOneLot(o, id)
    requires t'.core.orders == t.core.orders[id := o] && t'.sent == t.sent + {id}
    requires t'.staged == [] && t'.queue == [] && t'.local == [] && t'.hand.Empty?
    ensures Fleet(t', left, n + 1)
  {
    KeysGrow(t.core.orders, id, o);
    LotsGrow(t.core.orders, id, o);
  }

  lemma KeysGrow<K, V>(m: map<K, V>, k: K, v: V)
    requires k !in m
    ensures m[k := v].Keys == m.Keys + {k} && |m[k := v].Keys| == |m.Keys| + 1
  {
    assert m[k := v].Keys == m.Keys + {k};
  }

  lemma LotsGrow(orders: map<string, Order>, id: string, o: Order)
    requires IsOneLot(o, id) && forall x :: x in orders ==> IsOneLot(orders[x], x)
    ensures var orders' := orders[id := o]; forall x :: x in orders' ==> IsOneLot(orders'[x], x)
  {
  }

  lemma {:induction false} UpToTheLimit(cfg: Config, s: State, t: State, left: set<string>, n: nat) returns (t': State)
    requires Reaches(cfg, s, t) && Fleet(t, left, 0) && forall k: nat :: k < n ==> Room(cfg.globalRisk, k)
    ensures Reaches(cfg, s, t') && Fleet(t', left, n)
    decreases n
  {
    if n == 0 {
      t' := t;
    } else {
      var t1 := UpToTheLimit(cfg, s, t, left, n - 1);
      t' := OneMore(cfg, s, t1, left, n - 1);
    }
  }

  // ---------------------------------------------------------------- states before a restart

  /** A live order has nothing filled yet. */
  predicate Whole(orders: map<string, Order>) {
    forall id :: id in orders ==> OrderFills.AllOrNothing(orders[id], orders[id].status == InFilled)
  }

  lemma EventKeepsWhole(c: Core, e: Event)
    requires Whole(c.orders) && OrderFills.WholeFill(e)
    ensures Whole(CoreStep(c, e).orders)
  {
    if e.Report? && OutcomeOf(c, e.update) == Applied {
      var o := c.orders[Subject(c, e.update).value];
      OrderFills.UpdateIsAllOrNothing(o, e.update, ToInFlight(e.update.status).value, o.status == InFilled);
    }
  }

  lemma TurnDownKeepsWhole(s: State, gate: Event, reason: string, accepts: bool)
    requires Whole(s.core.orders) && s.hand.Holding? && (gate.GlobalRejection? || gate.PortfolioRejection?)
    ensures Whole(TurnDown(s, gate, reason, accepts).core.orders)
  {
    EventKeepsWhole(Happens(s, gate).core, Report(RejectUpdate(s.hand.intent, reason)));
  }

  lemma StepKeepsWhole(cfg: Config, s: State, a: Action)
    requires Whole(s.core.orders) && !a.Notice?
    ensures Whole(Step(cfg, s, a).core.orders)
  {
    if Enabled(s, a) {
      match a
      case SubmitTrack(x) =>
        EventKeepsWhole(s.core, Submission(s.requestIds + 1, x));
      case GlobalGate(accepts) =>
        var decision := GlobalDecision(s.core, cfg.globalRisk, s.hand.intent);
        if decision.Some? {
          TurnDownKeepsWhole(s, GlobalRejection, GlobalRejectName(decision.value), accepts);
        }
      case PortfolioGate(snapshot, accepts) =>
        var decision := PortfolioDecision(cfg, s.hand.intent, snapshot);
        if decision.Some? {
          TurnDownKeepsWhole(s, PortfolioRejection, PortfolioRejectName(decision.value), accepts);
        }
      case Receive(m, accepts) =>
        if ParseUpdate(m).Some? {
          EventKeepsWhole(s.core, Report(ParseUpdate(m).value));
        }
      case _ =>
    }
  }

  /** What the restart theorem needs of the state before the restart. */
  ghost predicate Healthy(cfg: Config, s: State) {
    Safe(cfg, s, "") && Whole(s.core.orders)
  }

  lemma {:induction false} RunKeepsHealthy(cfg: Config, s: State, actions: seq<Action>)
    requires Healthy(cfg, s) && FromAdapter(actions)
    ensures Healthy(cfg, Run(cfg, s, actions))
  {
    RunKeepsSafe(cfg, s, actions, "");
    if actions != [] {
      RunKeepsHealthy(cfg, s, actions[..|actions| - 1]);
      StepKeepsWhole(cfg, Run(cfg, s, actions[..|actions| - 1]), actions[|actions| - 1]);
    }
  }

  lemma StartIsHealthy(cfg: Config)
    ensures Healthy(cfg, START)
  {
    StartIsSafe(cfg, "");
  }

  lemma CleanRestartIsHealthy(cfg: Config, s: State)
    requires Idle(s) && !LeavesIntents(cfg, s)
    ensures Healthy(cfg, Restarted(s))
  {
    RestartIsSafe(cfg, s);
  }

  // ---------------------------------------------------------------- the limits break exactly otherwise

  lemma {:induction false} TotalAtLeastCount(w: map<string, int>)
    requires forall id :: id in w ==> 1 <= w[id]
    ensures |w| <= Total(w)
    decreases w.Keys
  {
    if w.Keys == {} {
      assert |w.Keys| == 0;
    } else {
      var id :| id in w.Keys;
      TotalRemove(w, id);
      TotalAtLeastCount(w - {id});
      assert (w - {id}).Keys == w.Keys - {id};
    }
  }

  lemma {:induction false} OpenAtLeastCount(orders: map<string, Order>, ids: set<string>)
    requires ids <= orders.Keys && forall id :: id in ids ==> 1 <= Outstanding(orders[id])
    ensures |ids| <= OpenQty(orders, ids)
    decreases ids
  {
    if ids != {} {
      var id :| id in ids;
      SplitOpenQty(orders, ids, id);
      OpenAtLeastCount(orders, ids - {id});
    }
  }

  /** A live sent order is open for at least one lot. */
  lemma ForgottenAreOpen(cfg: Config, s: State)
    requires Healthy(cfg, s)
    ensures |Live(s.core.orders, s.sent)| <= OpenQty(s.core.orders, Live(s.core.orders, s.sent))
  {
    OpenAtLeastCount(s.core.orders, Live(s.core.orders, s.sent));
  }

  /** A sendable leftover was tracked before the restart, for what it asks. */
  lemma LeftoverWasTracked(cfg: Config, s: State, left: seq<Intent>, id: string)
    requires Safe(cfg, s, "") && left == s.queue + s.staged && id in SendableIds(cfg, left)
    ensures id in s.core.orders && 0 < s.core.orders[id].requested
  {
    var i :| 0 <= i < |left| && Sends(cfg, left[i]) && left[i].clientId == id;
    assert left[i] in s.queue || left[i] in s.staged;
    assert left[i] in Waiting(s);
    assert IsWaiting(PartsOf(s), left[i], "");
  }

  lemma LeftoverIsSendable(cfg: Config, s: State, left: seq<Intent>)
    requires Idle(s) && left == s.queue + s.staged && LeavesIntents(cfg, s)
    ensures SendableIds(cfg, left) != {}
  {
    var x :| x in Waiting(s) && Sends(cfg, x);
    assert x in s.staged || x in s.queue;
    assert x in left;
    var i :| 0 <= i < |left| && left[i] == x;
    assert left[i].clientId in SendableIds(cfg, left);
  }

  /** Everything sent since the restart is at the venue, and each for at least one lot. */
  lemma FleetAtVenue(cfg: Config, s: State, t: State, left: seq<Intent>, n: nat)
    requires Safe(cfg, s, "") && left == s.queue + s.staged && Fleet(t, SendableIds(cfg, left), n)
    ensures |NotEnded(t)| == |SendableIds(cfg, left)| + n && |NotEnded(t)| <= Total(SentSince(s, t))
  {
    var w := SentSince(s, t);
    FleetIsNotEnded(t, SendableIds(cfg, left), n);
    forall id | id in w ensures 1 <= w[id] {
      AtLeastOneLot(cfg, s, t, left, n, id);
    }
    assert w.Keys == NotEnded(t);
    TotalAtLeastCount(w);
  }

  lemma FleetIsNotEnded(t: State, left: set<string>, n: nat)
    requires Fleet(t, left, n)
    ensures NotEnded(t) == left + t.core.orders.Keys && |NotEnded(t)| == |left| + n
  {
    assert NotEnded(t) == left + t.core.orders.Keys;
  }

  lemma AtLeastOneLot(cfg: Config, s: State, t: State, left: seq<Intent>, n: nat, id: string)
    requires Safe(cfg, s, "") && left == s.queue + s.staged && Fleet(t, SendableIds(cfg, left), n) && id in NotEnded(t)
    ensures 1 <= QtyOf(s, t, id)
  {
    if id in SendableIds(cfg, left) {
      LeftoverWasTracked(cfg, s, left, id);
    }
  }

  predicate Limited(g: GlobalRiskConfig) {
    g.maxActiveGlobal > 0 || g.maxOutstandingGlobal > 0
  }

  /** How many one-lot orders the gate lets out. */
  function LotsAllowed(g: GlobalRiskConfig): (n: nat)
    requires Limited(g)
    ensures forall k: nat :: k < n ==> Room(g, k)
    ensures g.maxActiveGlobal == n || g.maxOutstandingGlobal == n
    ensures 0 < n
  {
    if g.maxActiveGlobal > 0 && (g.maxOutstandingGlobal <= 0 || g.maxActiveGlobal <= g.maxOutstandingGlobal) then
      g.maxActiveGlobal
    else g.maxOutstandingGlobal
  }

  /** With something left over there is a run in which more is at the venue than a limit allows. */
  lemma LimitsBreakAfterDirtyRestart(cfg: Config, s: State) returns (t: State)
    requires Healthy(cfg, s) && Idle(s) && Limited(cfg.globalRisk)
    requires LeavesIntents(cfg, s) || LeavesOrders(s)
    ensures Reaches(cfg, Restarted(s), t) && !WithinAtVenue(cfg.globalRisk, s, t)
  {
    var g := cfg.globalRisk;
    var t1, left := DrainLeftovers(cfg, s);
    var n := LotsAllowed(g);
    t := UpToTheLimit(cfg, Restarted(s), t1, SendableIds(cfg, left), n);
    FleetAtVenue(cfg, s, t, left, n);
    ForgottenAreOpen(cfg, s);
    if LeavesIntents(cfg, s) {
      LeftoverIsSendable(cfg, s, left);
    }
  }

  /** The limits hold in every run after the restart, whatever a configured provider of snapshots may answer. */
  ghost predicate LimitsSurvive(cfg: Config, s: State)
    requires s.sent <= s.core.orders.Keys
  {
    forall actions :: FromAdapter(actions) ==> WithinAtVenue(cfg.globalRisk, s, Run(cfg, Restarted(s), actions))
  }

  lemma LimitsSurviveFromHealthyIff(cfg: Config, s: State)
    requires Healthy(cfg, s) && Idle(s) && Limited(cfg.globalRisk)
    ensures LimitsSurvive(cfg, s) <==> !LeavesIntents(cfg, s) && !LeavesOrders(s)
  {
    if !LeavesIntents(cfg, s) && !LeavesOrders(s) {
      forall actions | FromAdapter(actions)
        ensures WithinAtVenue(cfg.globalRisk, s, Run(cfg, Restarted(s), actions))
      {
        LimitsSurviveCleanRestart(cfg, s, actions);
      }
    } else {
      var t := LimitsBreakAfterDirtyRestart(cfg, s);
      var actions :| FromAdapter(actions) && Run(cfg, Restarted(s), actions) == t;
      assert !WithinAtVenue(cfg.globalRisk, s, Run(cfg, Restarted(s), actions));
    }
  }

  // ---------------------------------------------------------------- one life after another

  /** The state at the end of the last of some lives, each a run from a start to a stop. */
  ghost function EndOf(cfg: Config, lives: seq<seq<Action>>): State
    requires lives != []
  {
    var last := lives[|lives| - 1];
    if |lives| == 1 then Run(cfg, START, last) else Run(cfg, Restarted(EndOf(cfg, lives[..|lives| - 1])), last)
  }

  /** A life that ends with nothing sendable in the queue and no sent order live. */
  ghost predicate EndsClean(cfg: Config, s: State) {
    && Idle(s) && s.sent <= s.core.orders.Keys
    && !LeavesIntents(cfg, s) && !LeavesOrders(s)
  }

  /** All updates come through the modelled adapter, and every life but perhaps the last ends clean. */
  ghost predicate CleanLives(cfg: Config, lives: seq<seq<Action>>) {
    && lives != [] && (forall i :: 0 <= i < |lives| ==> FromAdapter(lives[i]))
    && (forall n :: 0 < n < |lives| ==> EndsClean(cfg, EndOf(cfg, lives[..n])))
  }

  lemma {:induction false} LivesAreHealthy(cfg: Config, lives: seq<seq<Action>>)
    requires CleanLives(cfg, lives)
    ensures Healthy(cfg, EndOf(cfg, lives))
  {
    var n := |lives| - 1;
    if n == 0 {
      FirstLifeIsHealthy(cfg, lives[0]);
    } else {
      assert EndsClean(cfg, EndOf(cfg, lives[..n]));
      NextLifeIsHealthy(cfg, EndOf(cfg, lives[..n]), lives[n]);
    }
  }

  lemma FirstLifeIsHealthy(cfg: Config, actions: seq<Action>)
    requires FromAdapter(actions)
    ensures Healthy(cfg, Run(cfg, START, actions))
  {
    StartIsHealthy(cfg);
    RunKeepsHealthy(cfg, START, actions);
  }

  lemma NextLifeIsHealthy(cfg: Config, before: State, actions: seq<Action>)
    requires FromAdapter(actions) && EndsClean(cfg, before)
    ensures Healthy(cfg, Run(cfg, Restarted(before), actions))
  {
    CleanRestartIsHealthy(cfg, before);
    RunKeepsHealthy(cfg, Restarted(before), actions);
  }

  /**
   A manager that was started, and restarted any number of times with nothing left over, is restarted once more: the
   limits hold in all runs that may follow if and only if again no intent left over can be sent and no sent order is
   still live. Without a provider of snapshots this is exact for the manager as it is; with one it is exact over all
   answers the provider may give. (With both limits switched off there is nothing to survive.)
   */
  lemma LimitsSurviveRestartIff(cfg: Config, lives: seq<seq<Action>>)
    requires CleanLives(cfg, lives) && Idle(EndOf(cfg, lives)) && Limited(cfg.globalRisk)
    ensures EndOf(cfg, lives).sent <= EndOf(cfg, lives).core.orders.Keys
    ensures LimitsSurvive(cfg, EndOf(cfg, lives)) <==> EndsClean(cfg, EndOf(cfg, lives))
  {
    LivesAreHealthy(cfg, lives);
    LimitsSurviveFromHealthyIff(cfg, EndOf(cfg, lives));
  }

  // ---------------------------------------------------------------- a provider whose answers let nothing pass

  /** An answer that lets no order pass, as any below an enforced floor. */
  ghost predicate Refuses(cfg: Config, snapshot: PortfolioRiskSnapshot) {
    forall x :: Creates(x) ==> EvaluatePortfolio(cfg.portfolioRisk, x, snapshot).Some?
  }

  lemma BelowFloorRefuses(cfg: Config, snapshot: PortfolioRiskSnapshot)
    requires cfg.portfolioRisk.enforcePnlFloor && snapshot.realizedPnl < cfg.portfolioRisk.minRealizedPnl
    ensures Refuses(cfg, snapshot)
  {
  }

  ghost predicate AllRefused(cfg: Config, actions: seq<Action>) {
    cfg.provided && forall i ::
      0 <= i < |actions| && actions[i].PortfolioGate? && actions[i].snapshot.Some? ==>
        Refuses(cfg, actions[i].snapshot.value)
  }

  /** Nothing has been sent, and nothing cleared for sending creates an order. */
  predicate Barred(t: State) {
    t.sent == {} && (t.hand.Holding? && t.hand.phase == Cleared ==> !Creates(t.hand.intent))
  }

  lemma StepStaysBarred(cfg: Config, t: State, a: Action)
    requires Barred(t) && cfg.provided
    requires a.PortfolioGate? && a.snapshot.Some? ==> Refuses(cfg, a.snapshot.value)
    ensures Barred(Step(cfg, t, a))
  {
    if a.PortfolioGate? && Enabled(t, a) && Answers(cfg, a) && Creates(t.hand.intent) {
      assert PortfolioDecision(cfg, t.hand.intent, a.snapshot).Some?;
    }
  }

  lemma {:induction false} RunStaysBarred(cfg: Config, t: State, actions: seq<Action>)
    requires Barred(t) && AllRefused(cfg, actions)
    ensures Barred(Run(cfg, t, actions))
  {
    if actions != [] {
      RunStaysBarred(cfg, t, actions[..|actions| - 1]);
      StepStaysBarred(cfg, Run(cfg, t, actions[..|actions| - 1]), actions[|actions| - 1]);
    }
  }

  /** Whatever a restart leaves over, as long as the provider's answers let no order pass the limits hold. */
  lemma RefusingProviderKeepsLimits(cfg: Config, s: State, actions: seq<Action>)
    requires Safe(cfg, s, "") && AllRefused(cfg, actions)
    ensures Run(cfg, Restarted(s), actions).sent == {}
    ensures WithinAtVenue(cfg.globalRisk, s, Run(cfg, Restarted(s), actions))
  {
    RunStaysBarred(cfg, Restarted(s), actions);
    var t := Run(cfg, Restarted(s), actions);
    SafeIsWithin(cfg, s);
    assert NotEnded(t) == {} && SentSince(s, t).Keys == {};
  }

  // ---------------------------------------------------------------- two leftovers under a limit of one

  const LIMIT_ONE := Config(GlobalRiskConfig(1, 0, 0, 0), PortfolioRiskConfig(0, 0, 0, false), false)

  /** Both go out untracked: two orders at the venue under a limit of one, and none of the sent ones was submitted. */
  lemma LeftoversBreakTheLimit() returns (t: State)
    ensures Reaches(LIMIT_ONE, START.(queue := [OneLot("a"), OneLot("b")]), t) && Quiescent(t)
    ensures t.sent == {"a", "b"} && t.sentCount == 2 && t.submitted == 0 && t.core.orders == map[]
    ensures |NotEnded(t)| > LIMIT_ONE.globalRisk.maxActiveGlobal && !IntentsAgree(t)
  {
    var x, y := OneLot("a"), OneLot("b");
    var s := START.(queue := [x, y]);
    ReachesItself(LIMIT_ONE, s);
    var t1 := Step(LIMIT_ONE, s, DrainSwap);
    ReachStep(LIMIT_ONE, s, s, DrainSwap);
    assert [x, y] == [x] + [y] && [y] == [y] + [];
    LotsAreSendable("a");
    LotsAreSendable("b");
    var t2 := HandleLeftover(LIMIT_ONE, s, t1, x, [y]);
    t := HandleLeftover(LIMIT_ONE, s, t2, y, []);
    assert t.sent == {"a", "b"} && NotEnded(t) == t.sent;
    assert "a"[0] != "b"[0];
    TwoIds("a", "b");
  }

  lemma TwoIds(a: string, b: string)
    requires a != b
    ensures |{a, b}| == 2
  {
    assert {a, b} - {a} == {b};
  }

  lemma LotsAreSendable(id: string)
    requires id != ""
    ensures Sends(LIMIT_ONE, OneLot(id))
  {
  }
}
