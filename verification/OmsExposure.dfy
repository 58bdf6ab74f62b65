/**
 The exposure limits hold for the orders actually sent, in every interleaving, although submissions add tracked
 orders without looking at any limit. Everything is stated for a market `m`: with `m` empty only the global limits
 are meant, with a ticker also that market's own limits, which need orders to keep their market.
 */
module OmsExposure {
  import opened MarketTypes
  import opened OmsTypes
  import opened RiskGates
  import opened OrderCore
  import opened OrderCoreProperties
  import opened KalshiAdapter
  import opened OmsMachine

  // ---------------------------------------------------------------- sums over sent orders

  const NOTHING := GlobalRiskSnapshot(0, 0, 0, 0)

  /** Live orders among the sent ones, and their open quantity, over all markets and in market `m`. */
  ghost function SentExposure(orders: map<string, Order>, sent: set<string>, m: string): GlobalRiskSnapshot
    requires sent <= orders.Keys
  {
    Sum(Shares(orders, m, ""), sent)
  }

  predicate AtMost(a: GlobalRiskSnapshot, b: GlobalRiskSnapshot) {
    && a.activeGlobal <= b.activeGlobal && a.outstandingGlobal <= b.outstandingGlobal
    && a.activeMarket <= b.activeMarket && a.outstandingMarket <= b.outstandingMarket
  }

  lemma {:induction false} SumIsMonotone<K>(low: map<K, GlobalRiskSnapshot>, lows: set<K>,
                                            high: map<K, GlobalRiskSnapshot>, highs: set<K>)
    requires lows <= highs && lows <= low.Keys && highs <= high.Keys
    requires forall id :: id in lows ==> AtMost(low[id], high[id])
    requires forall id :: id in highs ==> AtMost(NOTHING, high[id])
    ensures AtMost(Sum(low, lows), Sum(high, highs))
    decreases highs
  {
    if highs == {} {
      assert lows == {};
    } else {
      var id :| id in highs;
      SplitSum(high, highs, id);
      if id in lows {
        SplitSum(low, lows, id);
      } else {
        assert lows - {id} == lows;
      }
      SumIsMonotone(low, lows - {id}, high, highs - {id});
    }
  }

  lemma SharesAreNonNegative(orders: map<string, Order>, id: string, market: string, skip: string)
    requires id in orders
    ensures AtMost(NOTHING, Share(orders, id, market, skip))
  {
  }

  /** Leaving out one unsent id, the gate's snapshot covers everything sent. */
  lemma SnapshotCoversSent(orders: map<string, Order>, sent: set<string>, m: string, skip: string)
    requires sent <= orders.Keys && skip !in sent
    ensures AtMost(SentExposure(orders, sent, m), RiskSnapshot(orders, m, skip))
  {
    var low, high := Shares(orders, m, ""), Shares(orders, m, skip);
    forall id | id in sent ensures AtMost(low[id], high[id]) {
    }
    forall id | id in orders ensures AtMost(NOTHING, high[id]) {
      SharesAreNonNegative(orders, id, m, skip);
    }
    SumIsMonotone(low, sent, high, orders.Keys);
  }

  lemma SnapshotIsNonNegative(orders: map<string, Order>, m: string, skip: string)
    ensures AtMost(NOTHING, RiskSnapshot(orders, m, skip))
  {
    var high := Shares(orders, m, skip);
    forall id | id in orders ensures AtMost(NOTHING, high[id]) {
      SharesAreNonNegative(orders, id, m, skip);
    }
    SumIsMonotone(high, {}, high, orders.Keys);
  }

  /** The totals over all markets do not depend on the market asked about. */
  lemma {:induction false} SameTotals<K>(a: map<K, GlobalRiskSnapshot>, b: map<K, GlobalRiskSnapshot>, ids: set<K>)
    requires ids <= a.Keys && ids <= b.Keys
    requires forall id :: id in ids ==>
      a[id].activeGlobal == b[id].activeGlobal && a[id].outstandingGlobal == b[id].outstandingGlobal
    ensures Sum(a, ids).activeGlobal == Sum(b, ids).activeGlobal
    ensures Sum(a, ids).outstandingGlobal == Sum(b, ids).outstandingGlobal
    decreases ids
  {
    if ids != {} {
      var id :| id in ids;
      SplitSum(a, ids, id);
      SplitSum(b, ids, id);
      SameTotals(a, b, ids - {id});
    }
  }

  lemma SnapshotTotals(orders: map<string, Order>, m: string, market: string, skip: string)
    ensures RiskSnapshot(orders, m, skip).activeGlobal == RiskSnapshot(orders, market, skip).activeGlobal
    ensures RiskSnapshot(orders, m, skip).outstandingGlobal == RiskSnapshot(orders, market, skip).outstandingGlobal
  {
    SameTotals(Shares(orders, m, skip), Shares(orders, market, skip), orders.Keys);
  }

  /** Nothing relevant to market `m` changes: if `m` is a ticker, orders keep their market. */
  ghost predicate MarketsKept(before: map<string, Order>, after: map<string, Order>, m: string) {
    m != "" ==> forall id :: id in before && id in after ==> after[id].market == before[id].market
  }

  /** Orders that only settle lower the exposure. */
  lemma SettlingLowersExposure(before: map<string, Order>, after: map<string, Order>, sent: set<string>, m: string)
    requires sent <= before.Keys && sent <= after.Keys && MarketsKept(before, after, m)
    requires forall id :: id in sent ==> OnlySettles(before[id], after[id])
    ensures AtMost(SentExposure(after, sent, m), SentExposure(before, sent, m))
  {
    var low, high := Shares(after, m, ""), Shares(before, m, "");
    forall id | id in sent ensures AtMost(low[id], high[id]) && AtMost(NOTHING, high[id]) {
      SharesAreNonNegative(before, id, m, "");
      ShareLowers(before, after, id, m);
    }
    SumIsMonotone(low, sent, high, sent);
  }

  lemma ShareLowers(before: map<string, Order>, after: map<string, Order>, id: string, m: string)
    requires id in before && id in after && OnlySettles(before[id], after[id]) && MarketsKept(before, after, m)
    ensures AtMost(Share(after, id, m, ""), Share(before, id, m, ""))
  {
  }

  lemma SumAddsOne<K>(shares: map<K, GlobalRiskSnapshot>, ids: set<K>, id: K)
    requires ids <= shares.Keys && id in shares && id !in ids
    ensures Sum(shares, ids + {id}) == Plus(shares[id], Sum(shares, ids))
  {
    SplitSum(shares, ids + {id}, id);
    assert ids + {id} - {id} == ids;
  }

  /** The exposure after one more order is sent, `share` being what that order adds. */
  lemma SendingAddsShare(orders: map<string, Order>, sent: set<string>, id: string, m: string,
                         share: GlobalRiskSnapshot)
    requires sent <= orders.Keys && id in orders && id !in sent && share == Shares(orders, m, "")[id]
    ensures SentExposure(orders, sent + {id}, m) == Plus(share, SentExposure(orders, sent, m))
  {
    SumAddsOne(Shares(orders, m, ""), sent, id);
  }

  predicate SmallShare(share: GlobalRiskSnapshot, qty: int, inMarket: bool) {
    && share.activeGlobal <= 1 && share.outstandingGlobal <= Max(0, qty)
    && share.activeMarket <= (if inMarket then 1 else 0)
    && share.outstandingMarket <= (if inMarket then Max(0, qty) else 0)
  }

  lemma ShareIsSmall(orders: map<string, Order>, id: string, m: string)
    requires id in orders
    ensures SmallShare(Shares(orders, m, "")[id], orders[id].requested, InMarket(orders[id], m))
  {
    assert Shares(orders, m, "")[id] == Share(orders, id, m, "");
  }

  // ---------------------------------------------------------------- intents on their way

  /** The gate would let the intent pass if nothing else were live. */
  predicate FitsAlone(cfg: Config, x: Intent) {
    EvaluateGlobal(cfg.globalRisk, x, NOTHING).None?
  }

  /** Where a provider is configured, the portfolio gate lets no order pass whose side is unknown. */
  predicate Clears(cfg: Config, x: Intent) {
    cfg.provided && Creates(x) ==> x.side != UnknownSide
  }

  /** An intent that can lead to one more order at the venue. */
  predicate Sends(cfg: Config, x: Intent) {
    Creates(x) && BuildRequest(x).Some? && FitsAlone(cfg, x) && Clears(cfg, x)
  }

  /** What the exposure depends on. */
  datatype Parts = Parts(orders: map<string, Order>, waiting: multiset<Intent>, sent: set<string>, hand: Hand)

  function InHand(h: Hand): seq<Intent> {
    if h.Empty? then [] else [h.intent]
  }

  /** Everything tracked and not yet sent, rejected or failed. */
  function Waiting(s: State): multiset<Intent> {
    multiset(s.staged) + multiset(s.queue) + multiset(InHand(s.hand)) + multiset(s.local)
  }

  function PartsOf(s: State): Parts {
    Parts(s.core.orders, Waiting(s), s.sent, s.hand)
  }

  /** A waiting intent's order asks for what the intent says, in the market it says. */
  predicate Matches(orders: map<string, Order>, x: Intent, m: string) {
    && x.clientId in orders && orders[x.clientId].requested == x.qty
    && (m != "" ==> orders[x.clientId].market == x.market)
  }

  /** Sent orders are tracked; what may still be sent is tracked, unsent, and waits only once. */
  ghost predicate Orderly(cfg: Config, p: Parts, m: string) {
    && p.sent <= p.orders.Keys && (forall id :: id in p.sent ==> 0 < p.orders[id].requested)
    && (forall x :: x in p.waiting && Sends(cfg, x) ==> IsWaiting(p, x, m))
    && (forall x, y ::
          x in p.waiting && y in p.waiting && Sends(cfg, x) && Sends(cfg, y) && x.clientId == y.clientId ==> x == y)
  }

  predicate IsWaiting(p: Parts, x: Intent, m: string) {
    p.waiting[x] == 1 && Matches(p.orders, x, m) && x.clientId !in p.sent
  }

  predicate PastGate(h: Hand) {
    h.Holding? && h.phase != Taken
  }

  predicate Limits(cfg: Config, e: GlobalRiskSnapshot, m: string, orders: int, qty: int, here: bool) {
    && Within(cfg.globalRisk.maxActiveGlobal, e.activeGlobal + orders)
    && Within(cfg.globalRisk.maxOutstandingGlobal, e.outstandingGlobal + qty)
    && (m != "" && here ==>
          && Within(cfg.globalRisk.maxActivePerMarket, e.activeMarket + orders)
          && Within(cfg.globalRisk.maxOutstandingPerMarket, e.outstandingMarket + qty))
  }

  /** The limits, for the sent orders; for an intent past the global gate, with that intent counted in. */
  predicate WithinLimits(cfg: Config, e: GlobalRiskSnapshot, h: Hand, m: string) {
    && Limits(cfg, e, m, 0, 0, true)
    && (PastGate(h) ==> FitsAlone(cfg, h.intent))
    && (h.Holding? && h.phase == Cleared ==> Clears(cfg, h.intent))
    && (PastGate(h) && Sends(cfg, h.intent) ==> Limits(cfg, e, m, 1, h.intent.qty, h.intent.market == m))
  }

  ghost predicate SafeParts(cfg: Config, p: Parts, m: string) {
    Orderly(cfg, p, m) && WithinLimits(cfg, SentExposure(p.orders, p.sent, m), p.hand, m)
  }

  ghost predicate Safe(cfg: Config, s: State, m: string) {
    SafeParts(cfg, PartsOf(s), m) && (s.hand.Holding? ==> s.hand.intent in Waiting(s))
  }

  // ---------------------------------------------------------------- orders settle, intents leave

  /** From one state to the next: all orders are kept and only settle. */
  ghost predicate Settles(before: map<string, Order>, after: map<string, Order>) {
    forall id :: id in before ==> id in after && OnlySettles(before[id], after[id])
  }

  predicate HandMayBecome(h: Hand, h': Hand) {
    h' == h || h'.Empty? || h'.phase == Taken
  }

  lemma LowerIsWithin(cfg: Config, low: GlobalRiskSnapshot, high: GlobalRiskSnapshot, h: Hand, h': Hand,
                      m: string)
    requires AtMost(low, high) && WithinLimits(cfg, high, h, m) && HandMayBecome(h, h')
    ensures WithinLimits(cfg, low, h', m)
  {
  }

  lemma SettlingKeepsLimits(cfg: Config, p: Parts, p': Parts, m: string)
    requires p.sent <= p.orders.Keys && WithinLimits(cfg, SentExposure(p.orders, p.sent, m), p.hand, m)
    requires Settles(p.orders, p'.orders) && MarketsKept(p.orders, p'.orders, m)
    requires p'.sent == p.sent && HandMayBecome(p.hand, p'.hand)
    ensures p'.sent <= p'.orders.Keys && WithinLimits(cfg, SentExposure(p'.orders, p'.sent, m), p'.hand, m)
  {
    SettlingLowersExposure(p.orders, p'.orders, p.sent, m);
    LowerIsWithin(cfg, SentExposure(p'.orders, p.sent, m), SentExposure(p.orders, p.sent, m), p.hand, p'.hand, m);
  }

  lemma SettlingKeepsOrderly(cfg: Config, p: Parts, p': Parts, m: string)
    requires Orderly(cfg, p, m) && Settles(p.orders, p'.orders) && MarketsKept(p.orders, p'.orders, m)
    requires p'.sent == p.sent && p'.waiting <= p.waiting
    ensures Orderly(cfg, p', m)
  {
    forall x | x in p'.waiting && Sends(cfg, x) ensures IsWaiting(p', x, m) {
      assert IsWaiting(p, x, m);
    }
  }

  /** What tracks nothing new and sends nothing. */
  lemma SettlingKeepsSafe(cfg: Config, p: Parts, p': Parts, m: string)
    requires SafeParts(cfg, p, m) && Settles(p.orders, p'.orders) && MarketsKept(p.orders, p'.orders, m)
    requires p'.sent == p.sent && p'.waiting <= p.waiting && HandMayBecome(p.hand, p'.hand)
    ensures SafeParts(cfg, p', m)
  {
    SettlingKeepsOrderly(cfg, p, p', m);
    SettlingKeepsLimits(cfg, p, p', m);
  }

  lemma EventSettles(c: Core, e: Event)
    ensures Settles(c.orders, CoreStep(c, e).orders)
  {
    forall id | id in c.orders
      ensures id in CoreStep(c, e).orders && OnlySettles(c.orders[id], CoreStep(c, e).orders[id])
    {
      StepSettles(c, e, id);
    }
  }

  lemma SettlesItself(orders: map<string, Order>)
    ensures Settles(orders, orders)
  {
  }

  // ---------------------------------------------------------------- a submission

  /** A replace that says its market. */
  predicate Named(x: Intent, m: string) {
    m != "" && x.action == Replace ==> x.market != ""
  }

  lemma TrackedMatches(c: Core, requestId: nat, x: Intent, m: string)
    requires PolicyCheck(c, x).None? && Creates(x) && 0 < x.qty && Named(x, m)
    ensures Matches(Track(c, requestId, x).0.orders, x, m)
  {
  }

  lemma TrackInserts(c: Core, requestId: nat, x: Intent)
    requires PolicyCheck(c, x).None?
    ensures var orders := Track(c, requestId, x).0.orders;
            && (Creates(x) ==> x.clientId !in c.orders)
            && (forall id :: id in c.orders ==> id in orders && orders[id] == c.orders[id])
  {
  }

  lemma TrackKeepsOrderly(cfg: Config, c: Core, requestId: nat, x: Intent, p: Parts, p': Parts, m: string)
    requires Orderly(cfg, p, m) && p.orders == c.orders && PolicyCheck(c, x).None? && Named(x, m)
    requires p'.orders == Track(c, requestId, x).0.orders && p'.waiting == p.waiting + multiset{x} && p'.sent == p.sent
    ensures Orderly(cfg, p', m)
  {
    TrackInserts(c, requestId, x);
    forall y | y in p'.waiting && Sends(cfg, y) ensures IsWaiting(p', y, m) {
      if y in p.waiting {
        assert IsWaiting(p, y, m);
      } else {
        TrackedMatches(c, requestId, x, m);
      }
    }
  }

  lemma TrackKeepsSafe(cfg: Config, c: Core, requestId: nat, x: Intent, p: Parts, p': Parts, m: string)
    requires SafeParts(cfg, p, m) && p.orders == c.orders && PolicyCheck(c, x).None? && Named(x, m)
    requires p' == p.(orders := Track(c, requestId, x).0.orders, waiting := p.waiting + multiset{x})
    ensures SafeParts(cfg, p', m)
  {
    TrackKeepsOrderly(cfg, c, requestId, x, p, p', m);
    TrackInserts(c, requestId, x);
    EventSettles(c, Submission(requestId, x));
    SettlingKeepsLimits(cfg, p, p', m);
  }

  // ---------------------------------------------------------------- the gates

  lemma PassingFitsAlone(cfg: Config, x: Intent, snapshot: GlobalRiskSnapshot)
    requires EvaluateGlobal(cfg.globalRisk, x, snapshot).None? && AtMost(NOTHING, snapshot)
    ensures FitsAlone(cfg, x)
  {
  }

  /** `same` are the totals for market `m`, `snapshot` what the gate saw for the intent's own market. */
  lemma PassingIsWithin(cfg: Config, x: Intent, snapshot: GlobalRiskSnapshot, same: GlobalRiskSnapshot,
                        e: GlobalRiskSnapshot, m: string)
    requires EvaluateGlobal(cfg.globalRisk, x, snapshot).None? && Creates(x) && 0 < x.qty && AtMost(e, same)
    requires same.activeGlobal == snapshot.activeGlobal && same.outstandingGlobal == snapshot.outstandingGlobal
    requires x.market == m ==> same == snapshot
    ensures Limits(cfg, e, m, 1, x.qty, x.market == m)
  {
  }

  lemma GateKeepsSafe(cfg: Config, p: Parts, m: string)
    requires SafeParts(cfg, p, m) && p.hand.Holding? && p.hand.intent in p.waiting
    requires EvaluateGlobal(cfg.globalRisk, p.hand.intent,
                            RiskSnapshot(p.orders, p.hand.intent.market, p.hand.intent.clientId)).None?
    ensures SafeParts(cfg, p.(hand := Holding(p.hand.intent, PassedGlobal)), m)
  {
    var x := p.hand.intent;
    var snapshot, same := RiskSnapshot(p.orders, x.market, x.clientId), RiskSnapshot(p.orders, m, x.clientId);
    SnapshotIsNonNegative(p.orders, x.market, x.clientId);
    PassingFitsAlone(cfg, x, snapshot);
    if Sends(cfg, x) {
      assert IsWaiting(p, x, m);
      SnapshotCoversSent(p.orders, p.sent, m, x.clientId);
      SnapshotTotals(p.orders, m, x.market, x.clientId);
      PassingIsWithin(cfg, x, snapshot, same, SentExposure(p.orders, p.sent, m), m);
    }
    RehandedIsOrderly(cfg, p, Holding(x, PassedGlobal), m);
  }

  lemma RehandedIsOrderly(cfg: Config, p: Parts, h: Hand, m: string)
    requires Orderly(cfg, p, m)
    ensures Orderly(cfg, p.(hand := h), m)
  {
    var p' := p.(hand := h);
    forall x | x in p'.waiting && Sends(cfg, x) ensures IsWaiting(p', x, m) {
      assert IsWaiting(p, x, m);
    }
  }

  lemma ClearingKeepsSafe(cfg: Config, p: Parts, m: string)
    requires SafeParts(cfg, p, m) && PastGate(p.hand) && Clears(cfg, p.hand.intent)
    ensures SafeParts(cfg, p.(hand := Holding(p.hand.intent, Cleared)), m)
  {
    RehandedIsOrderly(cfg, p, Holding(p.hand.intent, Cleared), m);
  }

  // ---------------------------------------------------------------- sending

  lemma SentIsWithin(cfg: Config, e: GlobalRiskSnapshot, share: GlobalRiskSnapshot, h: Hand, m: string)
    requires WithinLimits(cfg, e, h, m) && PastGate(h) && Sends(cfg, h.intent)
    requires SmallShare(share, h.intent.qty, m != "" && h.intent.market == m)
    ensures WithinLimits(cfg, Plus(share, e), Empty, m)
  {
  }

  lemma SendKeepsOrderly(cfg: Config, p: Parts, p': Parts, x: Intent, m: string)
    requires Orderly(cfg, p, m) && x in p.waiting && Sends(cfg, x)
    requires p' == p.(waiting := p.waiting - multiset{x}, sent := p.sent + {x.clientId}, hand := Empty)
    ensures Orderly(cfg, p', m)
  {
    assert IsWaiting(p, x, m);
    forall y | y in p'.waiting && Sends(cfg, y) ensures IsWaiting(p', y, m) {
      assert y in p.waiting && IsWaiting(p, y, m);
    }
  }

  lemma SendKeepsSafe(cfg: Config, p: Parts, p': Parts, m: string)
    requires SafeParts(cfg, p, m) && p.hand.Holding? && p.hand.phase == Cleared && p.hand.intent in p.waiting
    requires Creates(p.hand.intent) && BuildRequest(p.hand.intent).Some?
    requires p' == p.(waiting := p.waiting - multiset{p.hand.intent}, sent := p.sent + {p.hand.intent.clientId},
                      hand := Empty)
    ensures SafeParts(cfg, p', m)
  {
    var x := p.hand.intent;
    assert IsWaiting(p, x, m);
    SendKeepsOrderly(cfg, p, p', x, m);
    var share := Shares(p.orders, m, "")[x.clientId];
    ShareIsSmall(p.orders, x.clientId, m);
    SendingAddsShare(p.orders, p.sent, x.clientId, m, share);
    SentIsWithin(cfg, SentExposure(p.orders, p.sent, m), share, p.hand, m);
  }

  // ---------------------------------------------------------------- every step keeps the limits

  /** What the limits of a single market need of a step: no order changes its market, and a replace names its own. */
  ghost predicate Steady(cfg: Config, s: State, a: Action, m: string) {
    MarketsKept(s.core.orders, Step(cfg, s, a).core.orders, m) && (a.SubmitTrack? ==> Named(a.intent, m))
  }

  /** Steps that settle orders and take nothing on. */
  lemma QuietStepKeepsSafe(cfg: Config, s: State, s': State, m: string)
    requires Safe(cfg, s, m) && s'.sent == s.sent && HandMayBecome(s.hand, s'.hand)
    requires Settles(s.core.orders, s'.core.orders) && MarketsKept(s.core.orders, s'.core.orders, m)
    requires Waiting(s') <= Waiting(s) && (s'.hand.Holding? ==> s'.hand.intent in Waiting(s'))
    ensures Safe(cfg, s', m)
  {
    SettlingKeepsSafe(cfg, PartsOf(s), PartsOf(s'), m);
  }

  lemma TurnDownSettles(s: State, gate: Event, reason: string, accepts: bool)
    requires s.hand.Holding? && (gate.GlobalRejection? || gate.PortfolioRejection?)
    ensures var s' := TurnDown(s, gate, reason, accepts);
            && Settles(s.core.orders, s'.core.orders) && s'.sent == s.sent && s'.hand.Empty?
            && Waiting(s') <= Waiting(s)
  {
    EventSettles(Happens(s, gate).core, Report(RejectUpdate(s.hand.intent, reason)));
  }

  lemma SubmitKeepsSafe(cfg: Config, s: State, x: Intent, m: string)
    requires Safe(cfg, s, m) && Named(x, m)
    ensures Safe(cfg, Step(cfg, s, SubmitTrack(x)), m)
  {
    if Supports(x) && PolicyCheck(s.core, x).None? {
      AcceptedKeepsSafe(cfg, s, x, m);
    } else {
      SettlesItself(s.core.orders);
      QuietStepKeepsSafe(cfg, s, Step(cfg, s, SubmitTrack(x)), m);
    }
  }

  lemma AcceptedKeepsSafe(cfg: Config, s: State, x: Intent, m: string)
    requires Safe(cfg, s, m) && Named(x, m) && Supports(x) && PolicyCheck(s.core, x).None?
    ensures Safe(cfg, Step(cfg, s, SubmitTrack(x)), m)
  {
    AcceptedParts(cfg, s, x);
    TrackKeepsSafe(cfg, s.core, s.requestIds + 1, x, PartsOf(s), PartsOf(Step(cfg, s, SubmitTrack(x))), m);
  }

  lemma AcceptedParts(cfg: Config, s: State, x: Intent)
    requires Supports(x) && PolicyCheck(s.core, x).None?
    ensures PartsOf(Step(cfg, s, SubmitTrack(x)))
            == PartsOf(s).(orders := Track(s.core, s.requestIds + 1, x).0.orders,
                           waiting := PartsOf(s).waiting + multiset{x})
  {
    var s' := Step(cfg, s, SubmitTrack(x));
    assert s'.staged == s.staged + [x] && s'.queue == s.queue && s'.hand == s.hand && s'.local == s.local;
    OneMoreWaits(s, s', x);
  }

  lemma OneMoreWaits(s: State, s': State, x: Intent)
    requires s'.staged == s.staged + [x] && s'.queue == s.queue && s'.hand == s.hand && s'.local == s.local
    ensures Waiting(s') == Waiting(s) + multiset{x}
  {
    assert multiset(s'.staged) == multiset(s.staged) + multiset{x};
  }

  /** Intents change their place and nothing else happens. */
  lemma MovedKeepsSafe(cfg: Config, s: State, s': State, m: string)
    requires Safe(cfg, s, m) && s'.core == s.core && s'.sent == s.sent && Waiting(s') == Waiting(s)
    requires HandMayBecome(s.hand, s'.hand) && (s'.hand.Holding? ==> s'.hand.intent in Waiting(s'))
    ensures Safe(cfg, s', m)
  {
    SettlesItself(s.core.orders);
    QuietStepKeepsSafe(cfg, s, s', m);
  }

  lemma EnqueueKeepsSafe(cfg: Config, s: State, i: nat, m: string)
    requires Safe(cfg, s, m) && i < |s.staged|
    ensures Safe(cfg, Step(cfg, s, SubmitEnqueue(i)), m)
  {
    EnqueueKeepsWaiting(cfg, s, i);
    MovedKeepsSafe(cfg, s, Step(cfg, s, SubmitEnqueue(i)), m);
  }

  lemma TakeKeepsSafe(cfg: Config, s: State, m: string)
    requires Safe(cfg, s, m) && s.hand.Empty? && s.local != []
    ensures Safe(cfg, Step(cfg, s, TakeNext), m)
  {
    TakeKeepsWaiting(cfg, s);
    MovedKeepsSafe(cfg, s, Step(cfg, s, TakeNext), m);
  }

  lemma CountOrSwapKeepsSafe(cfg: Config, s: State, a: Action, m: string)
    requires Safe(cfg, s, m) && Enabled(s, a) && (a.SubmitCount? || a.DrainSwap?)
    ensures Safe(cfg, Step(cfg, s, a), m)
  {
    MovedKeepsSafe(cfg, s, Step(cfg, s, a), m);
  }

  lemma EnqueueKeepsWaiting(cfg: Config, s: State, i: nat)
    requires i < |s.staged|
    ensures Waiting(Step(cfg, s, SubmitEnqueue(i))) == Waiting(s)
  {
    MovesOne(s.staged, s.queue, i);
  }

  lemma MovesOne(from: seq<Intent>, to: seq<Intent>, i: nat)
    requires i < |from|
    ensures multiset(from[..i] + from[i + 1..]) + multiset(to + [from[i]]) == multiset(from) + multiset(to)
  {
    assert from == from[..i] + [from[i]] + from[i + 1..];
  }

  lemma TakeKeepsWaiting(cfg: Config, s: State)
    requires s.hand.Empty? && s.local != []
    ensures Waiting(Step(cfg, s, TakeNext)) == Waiting(s)
  {
    assert s.local == [s.local[0]] + s.local[1..];
  }

  /** Emptying the hand, and nothing else, leaves the held intent out. */
  lemma HandEmptied(s: State, s': State)
    requires s.hand.Holding? && s'.hand.Empty? && s'.staged == s.staged && s'.queue == s.queue && s'.local == s.local
    ensures Waiting(s') == Waiting(s) - multiset{s.hand.intent}
  {
  }

  lemma HandAdvanced(s: State, s': State)
    requires s.hand.Holding? && s'.hand.Holding? && s'.hand.intent == s.hand.intent
    requires s'.staged == s.staged && s'.queue == s.queue && s'.local == s.local
    ensures Waiting(s') == Waiting(s)
  {
  }

  lemma GlobalGateKeepsSafe(cfg: Config, s: State, accepts: bool, m: string)
    requires Safe(cfg, s, m) && Enabled(s, GlobalGate(accepts)) && Steady(cfg, s, GlobalGate(accepts), m)
    ensures Safe(cfg, Step(cfg, s, GlobalGate(accepts)), m)
  {
    var decision := GlobalDecision(s.core, cfg.globalRisk, s.hand.intent);
    if decision.None? {
      GateKeepsSafe(cfg, PartsOf(s), m);
      HandAdvanced(s, Step(cfg, s, GlobalGate(accepts)));
    } else {
      TurnDownSettles(s, GlobalRejection, GlobalRejectName(decision.value), accepts);
      QuietStepKeepsSafe(cfg, s, Step(cfg, s, GlobalGate(accepts)), m);
    }
  }

  lemma PortfolioGateKeepsSafe(cfg: Config, s: State, a: Action, m: string)
    requires Safe(cfg, s, m) && a.PortfolioGate? && Enabled(s, a) && Answers(cfg, a) && Steady(cfg, s, a, m)
    ensures Safe(cfg, Step(cfg, s, a), m)
  {
    var decision := PortfolioDecision(cfg, s.hand.intent, a.snapshot);
    if decision.Some? {
      TurnDownSettles(s, PortfolioRejection, PortfolioRejectName(decision.value), a.sinkAccepts);
      QuietStepKeepsSafe(cfg, s, Step(cfg, s, a), m);
    } else {
      ClearedKeepsSafe(cfg, s, Step(cfg, s, a), m);
    }
  }

  lemma ClearedKeepsSafe(cfg: Config, s: State, s': State, m: string)
    requires Safe(cfg, s, m) && PastGate(s.hand) && Clears(cfg, s.hand.intent)
    requires s' == s.(hand := Holding(s.hand.intent, Cleared))
    ensures Safe(cfg, s', m)
  {
    ClearingKeepsSafe(cfg, PartsOf(s), m);
    HandAdvanced(s, s');
  }

  lemma SendStepKeepsSafe(cfg: Config, s: State, accepts: bool, m: string)
    requires Safe(cfg, s, m) && Enabled(s, Send(accepts))
    ensures Safe(cfg, Step(cfg, s, Send(accepts)), m)
  {
    var s' := Step(cfg, s, Send(accepts));
    if accepts && BuildRequest(s.hand.intent).Some? && Creates(s.hand.intent) {
      SentKeepsSafe(cfg, s, s', m);
    } else {
      UnsentKeepsSafe(cfg, s, s', m);
    }
  }

  lemma SentKeepsSafe(cfg: Config, s: State, s': State, m: string)
    requires Safe(cfg, s, m) && s.hand.Holding? && s.hand.phase == Cleared
    requires Creates(s.hand.intent) && BuildRequest(s.hand.intent).Some?
    requires s'.core == s.core && s'.staged == s.staged && s'.queue == s.queue && s'.local == s.local
    requires s'.hand.Empty? && s'.sent == s.sent + {s.hand.intent.clientId}
    ensures Safe(cfg, s', m)
  {
    HandEmptied(s, s');
    SendKeepsSafe(cfg, PartsOf(s), PartsOf(s'), m);
  }

  lemma UnsentKeepsSafe(cfg: Config, s: State, s': State, m: string)
    requires Safe(cfg, s, m) && s.hand.Holding? && s'.core == s.core && s'.sent == s.sent && s'.hand.Empty?
    requires s'.staged == s.staged && s'.queue == s.queue && s'.local == s.local
    ensures Safe(cfg, s', m)
  {
    HandEmptied(s, s');
    SettlesItself(s.core.orders);
    QuietStepKeepsSafe(cfg, s, s', m);
  }

  lemma ReceiveKeepsSafe(cfg: Config, s: State, a: Action, m: string)
    requires Safe(cfg, s, m) && a.Receive? && Enabled(s, a) && Steady(cfg, s, a, m)
    ensures Safe(cfg, Step(cfg, s, a), m)
  {
    var s' := Step(cfg, s, a);
    SettlesItself(s.core.orders);
    if ParseUpdate(a.message).Some? {
      EventSettles(s.core, Report(ParseUpdate(a.message).value));
    }
    assert Waiting(s') == Waiting(s);
    QuietStepKeepsSafe(cfg, s, s', m);
  }

  lemma NoticeKeepsSafe(cfg: Config, s: State, a: Action, m: string)
    requires Safe(cfg, s, m) && a.Notice? && Enabled(s, a) && Steady(cfg, s, a, m)
    ensures Safe(cfg, Step(cfg, s, a), m)
  {
    EventSettles(s.core, Report(a.update));
    QuietStepKeepsSafe(cfg, s, Step(cfg, s, a), m);
  }

  lemma StepKeepsSafe(cfg: Config, s: State, a: Action, m: string)
    requires Safe(cfg, s, m) && Enabled(s, a) && Answers(cfg, a) && Steady(cfg, s, a, m)
    ensures Safe(cfg, Step(cfg, s, a), m)
  {
    match a
    case SubmitTrack(x) => SubmitKeepsSafe(cfg, s, x, m);
    case GlobalGate(accepts) => GlobalGateKeepsSafe(cfg, s, accepts, m);
    case PortfolioGate(_, _) => PortfolioGateKeepsSafe(cfg, s, a, m);
    case Send(accepts) => SendStepKeepsSafe(cfg, s, accepts, m);
    case Receive(_, _) => ReceiveKeepsSafe(cfg, s, a, m);
    case Notice(_, _) => NoticeKeepsSafe(cfg, s, a, m);
    case SubmitEnqueue(i) => EnqueueKeepsSafe(cfg, s, i, m);
    case TakeNext => TakeKeepsSafe(cfg, s, m);
    case _ => CountOrSwapKeepsSafe(cfg, s, a, m);
  }

  ghost predicate SteadyRun(cfg: Config, s: State, actions: seq<Action>, m: string) {
    forall n :: 0 <= n < |actions| ==> Steady(cfg, Run(cfg, s, actions[..n]), actions[n], m)
  }

  lemma {:induction false} RunKeepsSafe(cfg: Config, s: State, actions: seq<Action>, m: string)
    requires Safe(cfg, s, m) && SteadyRun(cfg, s, actions, m)
    ensures Safe(cfg, Run(cfg, s, actions), m)
  {
    if actions != [] {
      var front, a := actions[..|actions| - 1], actions[|actions| - 1];
      assert forall n :: 0 <= n < |front| ==> actions[..n] == front[..n];
      RunKeepsSafe(cfg, s, front, m);
      assert Steady(cfg, Run(cfg, s, actions[..|actions| - 1]), actions[|actions| - 1], m);
      if Enabled(Run(cfg, s, front), a) && Answers(cfg, a) {
        StepKeepsSafe(cfg, Run(cfg, s, front), a, m);
      }
    }
  }

  lemma StartIsSafe(cfg: Config, m: string)
    ensures Safe(cfg, START, m)
  {
    assert Waiting(START) == multiset{};
    assert SentExposure(map[], {}, m) == NOTHING;
  }

  /** With no market in view every run is steady. */
  lemma AlwaysSafe(cfg: Config, actions: seq<Action>)
    ensures Safe(cfg, Run(cfg, START, actions), "")
  {
    StartIsSafe(cfg, "");
    RunKeepsSafe(cfg, START, actions, "");
  }

  // ---------------------------------------------------------------- the limits in plain terms

  /** The orders among `ids` that are still live. */
  function Live(orders: map<string, Order>, ids: set<string>): set<string>
    requires ids <= orders.Keys
  {
    set id | id in ids && !IsTerminal(orders[id].status)
  }

  /** Those of them in one market. */
  function LiveIn(orders: map<string, Order>, ids: set<string>, m: string): set<string>
    requires ids <= orders.Keys
  {
    set id | id in ids && !IsTerminal(orders[id].status) && InMarket(orders[id], m)
  }

  /** Open quantity of some orders. */
  ghost function OpenQty(orders: map<string, Order>, ids: set<string>): int
    requires ids <= orders.Keys
    decreases ids
  {
    if ids == {} then 0
    else
      var id :| id in ids;
      Outstanding(orders[id]) + OpenQty(orders, ids - {id})
  }

  lemma {:induction false} SplitOpenQty(orders: map<string, Order>, ids: set<string>, id: string)
    requires ids <= orders.Keys && id in ids
    ensures OpenQty(orders, ids) == Outstanding(orders[id]) + OpenQty(orders, ids - {id})
    decreases ids
  {
    var first :| first in ids && OpenQty(orders, ids) == Outstanding(orders[first]) + OpenQty(orders, ids - {first});
    if first != id {
      SplitOpenQty(orders, ids - {first}, id);
      SplitOpenQty(orders, ids - {id}, first);
      assert (ids - {first}) - {id} == (ids - {id}) - {first};
    }
  }

  /** Taking one id away from a set of orders whose open quantities are summed. */
  lemma OpenQtyWithout(orders: map<string, Order>, all: set<string>, rest: set<string>, id: string)
    requires all <= orders.Keys && rest <= orders.Keys && id in all && rest == all - {id}
    ensures |all| == |rest| + 1 && OpenQty(orders, all) == Outstanding(orders[id]) + OpenQty(orders, rest)
  {
    SplitOpenQty(orders, all, id);
  }

  lemma {:induction false} ExposureCounts(orders: map<string, Order>, ids: set<string>, m: string,
                                          e: GlobalRiskSnapshot)
    requires ids <= orders.Keys && e == SentExposure(orders, ids, m)
    ensures e.activeGlobal == |Live(orders, ids)| && e.outstandingGlobal == OpenQty(orders, Live(orders, ids))
    ensures e.activeMarket == |LiveIn(orders, ids, m)| && e.outstandingMarket == OpenQty(orders, LiveIn(orders, ids, m))
    decreases ids
  {
    if ids == {} {
      assert Live(orders, ids) == {} && LiveIn(orders, ids, m) == {};
    } else {
      var id :| id in ids;
      var rest := SentExposure(orders, ids - {id}, m);
      ExposureCounts(orders, ids - {id}, m, rest);
      var share := Shares(orders, m, "")[id];
      SplitExposure(orders, ids, id, m, share, e, rest);
      ShareMeans(orders, id, m, share);
      LiveWithout(orders, ids, id);
      LiveInWithout(orders, ids, id, m);
    }
  }

  lemma LiveWithout(orders: map<string, Order>, ids: set<string>, id: string)
    requires ids <= orders.Keys && id in ids
    ensures var live, rest := Live(orders, ids), Live(orders, ids - {id});
            if IsTerminal(orders[id].status) then live == rest
            else |live| == |rest| + 1 && OpenQty(orders, live) == Outstanding(orders[id]) + OpenQty(orders, rest)
  {
    if !IsTerminal(orders[id].status) {
      assert Live(orders, ids - {id}) == Live(orders, ids) - {id};
      OpenQtyWithout(orders, Live(orders, ids), Live(orders, ids - {id}), id);
    }
  }

  lemma LiveInWithout(orders: map<string, Order>, ids: set<string>, id: string, m: string)
    requires ids <= orders.Keys && id in ids
    ensures var live, rest := LiveIn(orders, ids, m), LiveIn(orders, ids - {id}, m);
            if IsTerminal(orders[id].status) || !InMarket(orders[id], m) then live == rest
            else |live| == |rest| + 1 && OpenQty(orders, live) == Outstanding(orders[id]) + OpenQty(orders, rest)
  {
    if !IsTerminal(orders[id].status) && InMarket(orders[id], m) {
      assert LiveIn(orders, ids - {id}, m) == LiveIn(orders, ids, m) - {id};
      OpenQtyWithout(orders, LiveIn(orders, ids, m), LiveIn(orders, ids - {id}, m), id);
    }
  }

  lemma SplitExposure(orders: map<string, Order>, ids: set<string>, id: string, m: string,
                      share: GlobalRiskSnapshot, e: GlobalRiskSnapshot, rest: GlobalRiskSnapshot)
    requires ids <= orders.Keys && id in ids && share == Shares(orders, m, "")[id]
    requires e == SentExposure(orders, ids, m) && rest == SentExposure(orders, ids - {id}, m)
    ensures e == Plus(share, rest)
  {
    SplitAt(Shares(orders, m, ""), ids, id, share, e, rest);
  }

  lemma ShareMeans(orders: map<string, Order>, id: string, m: string, share: GlobalRiskSnapshot)
    requires id in orders && share == Shares(orders, m, "")[id]
    ensures var open := if IsTerminal(orders[id].status) then 0 else Outstanding(orders[id]);
            var one := if IsTerminal(orders[id].status) then 0 else 1;
            && share.activeGlobal == one && share.outstandingGlobal == open
            && share.activeMarket == (if InMarket(orders[id], m) then one else 0)
            && share.outstandingMarket == (if InMarket(orders[id], m) then open else 0)
  {
    assert share == Share(orders, id, m, "");
  }

  lemma SplitAt<K>(shares: map<K, GlobalRiskSnapshot>, ids: set<K>, id: K,
                   share: GlobalRiskSnapshot, e: GlobalRiskSnapshot, rest: GlobalRiskSnapshot)
    requires ids <= shares.Keys && id in ids && share == shares[id]
    requires e == Sum(shares, ids) && rest == Sum(shares, ids - {id})
    ensures e == Plus(share, rest)
  {
    SplitSum(shares, ids, id);
  }

  lemma SafeIsWithin(cfg: Config, t: State)
    requires Safe(cfg, t, "")
    ensures Within(cfg.globalRisk.maxActiveGlobal, |Live(t.core.orders, t.sent)|)
    ensures Within(cfg.globalRisk.maxOutstandingGlobal, OpenQty(t.core.orders, Live(t.core.orders, t.sent)))
  {
    ExposureCounts(t.core.orders, t.sent, "", SentExposure(t.core.orders, t.sent, ""));
  }

  /**
   In every interleaving from an empty queue: the sent orders that are still live are at most the configured number,
   and their open quantity is at most the configured quantity, each when that limit is switched on.
   */
  lemma SentOrdersStayWithinLimits(cfg: Config, actions: seq<Action>)
    ensures var s := Run(cfg, START, actions);
            && s.sent <= s.core.orders.Keys
            && Within(cfg.globalRisk.maxActiveGlobal, |Live(s.core.orders, s.sent)|)
            && Within(cfg.globalRisk.maxOutstandingGlobal, OpenQty(s.core.orders, Live(s.core.orders, s.sent)))
  {
    var s := Run(cfg, START, actions);
    AlwaysSafe(cfg, actions);
    SafeIsWithin(cfg, s);
  }

  /**
   The limits of a single market hold likewise in every interleaving in which no step changes an order's market and
   every replace names its own.
   */
  lemma SentOrdersStayWithinMarketLimits(cfg: Config, actions: seq<Action>, m: string)
    requires m != "" && SteadyRun(cfg, START, actions, m)
    ensures var s := Run(cfg, START, actions);
            && s.sent <= s.core.orders.Keys
            && Within(cfg.globalRisk.maxActivePerMarket, |LiveIn(s.core.orders, s.sent, m)|)
            && Within(cfg.globalRisk.maxOutstandingPerMarket, OpenQty(s.core.orders, LiveIn(s.core.orders, s.sent, m)))
  {
    var s := Run(cfg, START, actions);
    StartIsSafe(cfg, m);
    RunKeepsSafe(cfg, START, actions, m);
    ExposureCounts(s.core.orders, s.sent, m, SentExposure(s.core.orders, s.sent, m));
  }

  /** Tracking looks at no limit: in every state a fresh place raises the tracked totals, whatever they are. */
  lemma TrackingIgnoresLimits(cfg: Config, s: State, intent: Intent)
    requires Supports(intent) && intent.action == Place && intent.clientId != "" && intent.clientId !in s.core.orders
    ensures var orders, orders' := s.core.orders, Step(cfg, s, SubmitTrack(intent)).core.orders;
            var live, live' := Live(orders, orders.Keys), Live(orders', orders'.Keys);
            && |live'| == |live| + 1
            && OpenQty(orders', live') == OpenQty(orders, live) + Max(0, intent.qty)
  {
    var o := NewOrder(s.core, s.requestIds + 1, intent);
    FreshPlace(cfg, s, intent, o);
    InsertingAdds(s.core.orders, intent.clientId, o);
  }

  lemma FreshPlace(cfg: Config, s: State, x: Intent, o: Order)
    requires Supports(x) && x.action == Place && x.clientId != "" && x.clientId !in s.core.orders
    requires o == NewOrder(s.core, s.requestIds + 1, x)
    ensures Step(cfg, s, SubmitTrack(x)).core.orders == s.core.orders[x.clientId := o]
    ensures o.status == InPending && Outstanding(o) == Max(0, x.qty)
  {
  }

  lemma InsertingAdds(orders: map<string, Order>, id: string, o: Order)
    requires id !in orders && !IsTerminal(o.status)
    ensures var orders' := orders[id := o];
            var live, live' := Live(orders, orders.Keys), Live(orders', orders'.Keys);
            |live'| == |live| + 1 && OpenQty(orders', live') == OpenQty(orders, live) + Outstanding(o)
  {
    var orders' := orders[id := o];
    var live, live' := Live(orders, orders.Keys), Live(orders', orders'.Keys);
    assert live' == live + {id};
    SplitOpenQty(orders', live', id);
    assert live' - {id} == live;
    SameOpenQty(orders, orders', live);
  }

  lemma {:induction false} SameOpenQty(orders: map<string, Order>, orders': map<string, Order>, ids: set<string>)
    requires ids <= orders.Keys && ids <= orders'.Keys && forall id :: id in ids ==> orders[id] == orders'[id]
    ensures OpenQty(orders, ids) == OpenQty(orders', ids)
    decreases ids
  {
    if ids != {} {
      var id :| id in ids;
      SplitOpenQty(orders, ids, id);
      SplitOpenQty(orders', ids, id);
      SameOpenQty(orders, orders', ids - {id});
    }
  }
}
