/** What the tracked orders keep over every sequence of submissions and reports. */
module OrderCoreProperties {
  import opened MarketTypes
  import opened OmsTypes
  import opened RiskGates
  import opened OrderCore

  /** What can happen to the core: the two state changes, and a gate counting a rejection. */
  datatype Event =
    | Submission(requestId: nat, intent: Intent)
    | Report(update: Update)
    | GlobalRejection
    | PortfolioRejection

  function CoreStep(c: Core, e: Event): Core {
    match e
    case Submission(requestId, intent) => Track(c, requestId, intent).0
    case Report(update) => Apply(c, update).0
    case GlobalRejection => c.(riskRejects := c.riskRejects + 1)
    case PortfolioRejection => c.(portfolioRejects := c.portfolioRejects + 1)
  }

  function CoreRun(c: Core, es: seq<Event>): Core {
    if es == [] then c else CoreStep(CoreRun(c, es[..|es| - 1]), es[|es| - 1])
  }

  // ---------------------------------------------------------------- orders only settle

  /** What no event may change about an order, and the direction in which the rest may move. */
  predicate OnlySettles(before: Order, after: Order) {
    && after.requestId == before.requestId && after.clientId == before.clientId
    && after.action == before.action && after.replacing == before.replacing && after.requested == before.requested
    && (IsTerminal(before.status) ==> after.status == before.status)
    && Outstanding(after) <= Outstanding(before)
  }

  lemma UpdateSettles(o: Order, next: InFlightStatus, u: Update)
    requires CanTransition(o.status, next)
    ensures OnlySettles(o, UpdatedOrder(o, next, u))
  {
  }

  lemma StepSettles(c: Core, e: Event, id: string)
    requires id in c.orders
    ensures id in CoreStep(c, e).orders && OnlySettles(c.orders[id], CoreStep(c, e).orders[id])
  {
    match e
    case Submission(_, intent) =>
    case Report(u) =>
      if OutcomeOf(c, u) == Applied {
        var s := Subject(c, u).value;
        UpdateSettles(c.orders[s], ToInFlight(u.status).value, u);
      }
    case _ =>
  }

  /** Over every run no order is forgotten, a terminal status never changes and open quantity never rises. */
  lemma {:induction false} OrdersOnlySettle(c: Core, es: seq<Event>, id: string)
    requires id in c.orders
    ensures id in CoreRun(c, es).orders && OnlySettles(c.orders[id], CoreRun(c, es).orders[id])
  {
    if es != [] {
      OrdersOnlySettle(c, es[..|es| - 1], id);
      StepSettles(CoreRun(c, es[..|es| - 1]), es[|es| - 1], id);
    }
  }

  // ---------------------------------------------------------------- replace chains

  predicate Inserts(c: Core, e: Event) {
    e.Submission? && Creates(e.intent) && PolicyCheck(c, e.intent).None?
  }

  /** Client ids in the order in which they were tracked. */
  function Inserted(es: seq<Event>): seq<string> {
    if es == [] then []
    else
      var front, e := es[..|es| - 1], es[|es| - 1];
      if Inserts(CoreRun(EMPTY_CORE, front), e) then Inserted(front) + [e.intent.clientId] else Inserted(front)
  }

  /** A place starts a chain; a replace points to an order tracked before it. */
  predicate Linked(o: Order, earlier: seq<string>) {
    || (o.action == Place && o.replacing.None?)
    || (o.action == Replace && o.replacing.Some? && o.replacing.value in earlier)
  }

  predicate Distinct(ids: seq<string>) {
    forall i, j :: 0 <= i < j < |ids| ==> ids[i] != ids[j]
  }

  ghost predicate Chained(orders: map<string, Order>, ids: seq<string>) {
    && Distinct(ids)
    && (forall id :: id in orders <==> id in ids)
    && (forall i :: 0 <= i < |ids| ==> orders[ids[i]].clientId == ids[i] && Linked(orders[ids[i]], ids[..i]))
  }

  lemma InsertKeepsChained(orders: map<string, Order>, ids: seq<string>, o: Order)
    requires Chained(orders, ids) && o.clientId !in orders && Linked(o, ids)
    ensures Chained(orders[o.clientId := o], ids + [o.clientId])
  {
    var ids' := ids + [o.clientId];
    assert forall i :: 0 <= i < |ids| ==> ids'[..i] == ids[..i];
    assert ids'[..|ids|] == ids;
  }

  lemma ChangeKeepsChained(orders: map<string, Order>, ids: seq<string>, id: string, o: Order)
    requires Chained(orders, ids) && id in orders
    requires o.clientId == orders[id].clientId && o.action == orders[id].action && o.replacing == orders[id].replacing
    ensures Chained(orders[id := o], ids)
  {
  }

  lemma NewOrderIsLinked(c: Core, requestId: nat, intent: Intent, ids: seq<string>)
    requires PolicyCheck(c, intent).None? && Creates(intent) && Chained(c.orders, ids)
    ensures intent.clientId !in c.orders
    ensures var o := NewOrder(c, requestId, intent); o.clientId == intent.clientId && Linked(o, ids)
  {
  }

  lemma {:induction false} AlwaysChained(es: seq<Event>)
    ensures Chained(CoreRun(EMPTY_CORE, es).orders, Inserted(es))
  {
    if es != [] {
      var front, e := es[..|es| - 1], es[|es| - 1];
      var c := CoreRun(EMPTY_CORE, front);
      AlwaysChained(front);
      StepKeepsChained(c, e, Inserted(front));
    }
  }

  lemma StepKeepsChained(c: Core, e: Event, ids: seq<string>)
    requires Chained(c.orders, ids)
    ensures Chained(CoreStep(c, e).orders, if Inserts(c, e) then ids + [e.intent.clientId] else ids)
  {
    match e
    case Submission(requestId, intent) =>
      if Inserts(c, e) {
        NewOrderIsLinked(c, requestId, intent, ids);
        InsertKeepsChained(c.orders, ids, NewOrder(c, requestId, intent));
      }
    case Report(u) =>
      if OutcomeOf(c, u) == Applied {
        var id := Subject(c, u).value;
        ChangeKeepsChained(c.orders, ids, id, UpdatedOrder(c.orders[id], ToInFlight(u.status).value, u));
      }
    case _ =>
  }

  /** Follows `n` replace links. */
  function Follow(orders: map<string, Order>, id: string, n: nat): Option<string>
    decreases n
  {
    if n == 0 then Some(id)
    else if id in orders && orders[id].replacing.Some? then Follow(orders, orders[id].replacing.value, n - 1)
    else None
  }

  function IndexIn(ids: seq<string>, id: string): (i: nat)
    requires id in ids
    ensures i < |ids| && ids[i] == id
  {
    if ids[0] == id then 0 else 1 + IndexIn(ids[1..], id)
  }

  lemma LinkIsEarlier(orders: map<string, Order>, ids: seq<string>, i: nat) returns (j: nat)
    requires Chained(orders, ids) && i < |ids| && (orders[ids[i]].action != Place || orders[ids[i]].replacing.Some?)
    ensures j < i && orders[ids[i]].replacing == Some(ids[j])
  {
    assert Linked(orders[ids[i]], ids[..i]);
    j := IndexIn(ids[..i], orders[ids[i]].replacing.value);
  }

  /** Each link leads to an earlier insertion. */
  lemma {:induction false} FollowDescends(orders: map<string, Order>, ids: seq<string>, i: nat, n: nat)
    requires Chained(orders, ids) && i < |ids| && Follow(orders, ids[i], n).Some?
    ensures var id := Follow(orders, ids[i], n).value; id in ids && n <= i && id in ids[..i - n + 1]
    decreases n
  {
    if n > 0 {
      var j := LinkIsEarlier(orders, ids, i);
      FollowDescends(orders, ids, j, n - 1);
      assert ids[..j - (n - 1) + 1] <= ids[..i - n + 1];
    }
  }

  lemma FollowFirst(orders: map<string, Order>, id: string, next: string, n: nat)
    requires id in orders && orders[id].replacing == Some(next)
    ensures Follow(orders, id, n + 1) == Follow(orders, next, n)
  {
  }

  /** Following `n` links leads to a placed order. */
  predicate EndsAtPlace(orders: map<string, Order>, end: Option<string>) {
    end.Some? && end.value in orders && orders[end.value].action == Place && orders[end.value].replacing.None?
  }

  lemma PlaceEndsChain(orders: map<string, Order>, ids: seq<string>, i: nat)
    requires Chained(orders, ids) && i < |ids| && orders[ids[i]].action == Place
    ensures EndsAtPlace(orders, Follow(orders, ids[i], 0))
  {
    assert Linked(orders[ids[i]], ids[..i]);
  }

  lemma {:induction false} ChainReachesPlace(orders: map<string, Order>, ids: seq<string>, i: nat) returns (n: nat)
    requires Chained(orders, ids) && i < |ids|
    ensures n <= i && EndsAtPlace(orders, Follow(orders, ids[i], n))
    decreases i
  {
    if orders[ids[i]].action == Place {
      PlaceEndsChain(orders, ids, i);
      n := 0;
    } else {
      var j := LinkIsEarlier(orders, ids, i);
      var m := ChainReachesPlace(orders, ids, j);
      FollowFirst(orders, ids[i], ids[j], m);
      n := m + 1;
    }
  }

  /**
   In every reachable state: following replace targets from a tracked order stays inside the tracked orders, never
   comes back to where it started, and reaches a placed order in fewer links than there are orders.
   */
  lemma ReplaceChainsAreWellFounded(es: seq<Event>, id: string)
    requires id in CoreRun(EMPTY_CORE, es).orders
    ensures var orders := CoreRun(EMPTY_CORE, es).orders;
            && (forall n: nat :: Follow(orders, id, n).Some? ==>
                  Follow(orders, id, n).value in orders && (n > 0 ==> Follow(orders, id, n).value != id))
            && (exists n: nat :: n < |Inserted(es)| && Follow(orders, id, n).Some? &&
                  orders[Follow(orders, id, n).value].action == Place)
  {
    var orders, ids := CoreRun(EMPTY_CORE, es).orders, Inserted(es);
    AlwaysChained(es);
    var i := IndexIn(ids, id);
    forall n: nat | Follow(orders, id, n).Some?
      ensures Follow(orders, id, n).value in orders && (n > 0 ==> Follow(orders, id, n).value != id)
    {
      FollowDescends(orders, ids, i, n);
    }
    var n := ChainReachesPlace(orders, ids, i);
  }

  // ---------------------------------------------------------------- the exchange-id index

  /** An exchange id and the client id it was reported for. */
  datatype Binding = Binding(exchangeId: string, clientId: string)

  predicate Binds(c: Core, e: Event) {
    e.Report? && NamesExchangeId(e.update) && OutcomeOf(c, e.update) == Applied
  }

  function BindingOf(c: Core, e: Event): Binding
    requires Binds(c, e)
  {
    Binding(e.update.exchangeId.value, Subject(c, e.update).value)
  }

  function Bindings(es: seq<Event>): seq<Binding> {
    if es == [] then []
    else
      var c, e := CoreRun(EMPTY_CORE, es[..|es| - 1]), es[|es| - 1];
      if Binds(c, e) then Bindings(es[..|es| - 1]) + [BindingOf(c, e)] else Bindings(es[..|es| - 1])
  }

  function LatestClient(bs: seq<Binding>, exchangeId: string): Option<string> {
    if bs == [] then None
    else if bs[|bs| - 1].exchangeId == exchangeId then Some(bs[|bs| - 1].clientId)
    else LatestClient(bs[..|bs| - 1], exchangeId)
  }

  function LatestExchange(bs: seq<Binding>, clientId: string): Option<string> {
    if bs == [] then None
    else if bs[|bs| - 1].clientId == clientId then Some(bs[|bs| - 1].exchangeId)
    else LatestExchange(bs[..|bs| - 1], clientId)
  }

  predicate FiledUnder(byExchange: map<string, string>, exchangeId: string, latest: Option<string>) {
    (exchangeId in byExchange <==> latest.Some?) && (latest.Some? ==> byExchange[exchangeId] == latest.value)
  }

  /** The index and the orders both hold the latest report. */
  ghost predicate Indexed(c: Core, bs: seq<Binding>) {
    && (forall x :: FiledUnder(c.byExchange, x, LatestClient(bs, x)))
    && (forall id :: id in c.orders ==>
        c.orders[id].clientId == id && c.orders[id].exchangeId == LatestExchange(bs, id))
    && (forall i :: 0 <= i < |bs| ==> bs[i].clientId in c.orders)
  }

  lemma {:induction false} LatestExchangeIsBound(bs: seq<Binding>, id: string) returns (i: nat)
    requires LatestExchange(bs, id).Some?
    ensures i < |bs| && bs[i] == Binding(LatestExchange(bs, id).value, id)
  {
    if bs[|bs| - 1].clientId == id {
      i := |bs| - 1;
    } else {
      i := LatestExchangeIsBound(bs[..|bs| - 1], id);
    }
  }

  lemma {:induction false} LatestClientIsBound(bs: seq<Binding>, x: string) returns (i: nat)
    requires LatestClient(bs, x).Some?
    ensures i < |bs| && bs[i] == Binding(x, LatestClient(bs, x).value)
  {
    if bs[|bs| - 1].exchangeId == x {
      i := |bs| - 1;
    } else {
      i := LatestClientIsBound(bs[..|bs| - 1], x);
    }
  }

  lemma {:induction false} BoundHasLatest(bs: seq<Binding>, i: nat)
    requires i < |bs|
    ensures LatestClient(bs, bs[i].exchangeId).Some?
  {
    if i < |bs| - 1 {
      BoundHasLatest(bs[..|bs| - 1], i);
    }
  }

  lemma NeverTrackedNeverBound(c: Core, bs: seq<Binding>, id: string)
    requires Indexed(c, bs) && id !in c.orders
    ensures LatestExchange(bs, id).None?
  {
    if LatestExchange(bs, id).Some? {
      var i := LatestExchangeIsBound(bs, id);
    }
  }

  lemma BindKeepsIndexed(c: Core, bs: seq<Binding>, x: string, id: string, o: Order)
    requires Indexed(c, bs) && id in c.orders && o.clientId == id && o.exchangeId == Some(x)
    ensures Indexed(c.(orders := c.orders[id := o], byExchange := c.byExchange[x := id]), bs + [Binding(x, id)])
  {
    var bs' := bs + [Binding(x, id)];
    assert bs'[..|bs|] == bs;
    forall y ensures FiledUnder(c.byExchange[x := id], y, LatestClient(bs', y)) {
      assert FiledUnder(c.byExchange, y, LatestClient(bs, y));
    }
  }

  lemma InsertKeepsIndexed(c: Core, bs: seq<Binding>, o: Order)
    requires Indexed(c, bs) && o.clientId !in c.orders && o.exchangeId.None?
    ensures Indexed(c.(orders := c.orders[o.clientId := o]), bs)
  {
    NeverTrackedNeverBound(c, bs, o.clientId);
  }

  lemma ReportKeepsIndexed(c: Core, u: Update, bs: seq<Binding>)
    requires Indexed(c, bs) && OutcomeOf(c, u) == Applied
    ensures Indexed(Apply(c, u).0,
                    if NamesExchangeId(u) then bs + [Binding(u.exchangeId.value, Subject(c, u).value)] else bs)
  {
    if NamesExchangeId(u) {
      var id := Subject(c, u).value;
      BindKeepsIndexed(c, bs, u.exchangeId.value, id, UpdatedOrder(c.orders[id], ToInFlight(u.status).value, u));
    }
  }

  lemma StepKeepsIndexed(c: Core, e: Event, bs: seq<Binding>)
    requires Indexed(c, bs)
    ensures Indexed(CoreStep(c, e), if Binds(c, e) then bs + [BindingOf(c, e)] else bs)
  {
    match e
    case Submission(requestId, intent) =>
      if Inserts(c, e) {
        InsertKeepsIndexed(c, bs, NewOrder(c, requestId, intent));
      }
    case Report(u) =>
      if OutcomeOf(c, u) == Applied {
        ReportKeepsIndexed(c, u, bs);
      }
    case _ =>
  }

  /** In every reachable state index and orders are what the reports so far make them. */
  lemma {:induction false} IndexHoldsLatestReports(es: seq<Event>)
    ensures Indexed(CoreRun(EMPTY_CORE, es), Bindings(es))
  {
    if es != [] {
      IndexHoldsLatestReports(es[..|es| - 1]);
      StepKeepsIndexed(CoreRun(EMPTY_CORE, es[..|es| - 1]), es[|es| - 1], Bindings(es[..|es| - 1]));
    }
  }

  /** Every index entry names a tracked order, and every order's exchange id has an entry. */
  lemma IndexAndOrdersAgree(es: seq<Event>)
    ensures var c := CoreRun(EMPTY_CORE, es);
            && (forall x :: x in c.byExchange ==> c.byExchange[x] in c.orders)
            && (forall id :: id in c.orders && c.orders[id].exchangeId.Some? ==>
                  c.orders[id].exchangeId.value in c.byExchange)
  {
    var c, bs := CoreRun(EMPTY_CORE, es), Bindings(es);
    IndexHoldsLatestReports(es);
    forall x | x in c.byExchange ensures c.byExchange[x] in c.orders {
      assert FiledUnder(c.byExchange, x, LatestClient(bs, x));
      var i := LatestClientIsBound(bs, x);
    }
    forall id | id in c.orders && c.orders[id].exchangeId.Some? ensures c.orders[id].exchangeId.value in c.byExchange {
      var i := LatestExchangeIsBound(bs, id);
      BoundHasLatest(bs, i);
      assert FiledUnder(c.byExchange, bs[i].exchangeId, LatestClient(bs, bs[i].exchangeId));
    }
  }

  /** No exchange id is reported for two orders. */
  predicate Functional(bs: seq<Binding>) {
    forall i, j :: 0 <= i < j < |bs| && bs[i].exchangeId == bs[j].exchangeId ==> bs[i].clientId == bs[j].clientId
  }

  lemma FunctionalLeadsBack(bs: seq<Binding>, id: string)
    requires Functional(bs) && LatestExchange(bs, id).Some?
    ensures LatestClient(bs, LatestExchange(bs, id).value) == Some(id)
  {
    var i := LatestExchangeIsBound(bs, id);
    BoundHasLatest(bs, i);
    var j := LatestClientIsBound(bs, bs[i].exchangeId);
  }

  /**
   The entry of an order's exchange id leads back to that order exactly when no other order was the last to report
   that id; in particular always when no exchange id is reported for two orders.
   */
  lemma IndexLeadsBack(es: seq<Event>, id: string)
    requires id in CoreRun(EMPTY_CORE, es).orders && CoreRun(EMPTY_CORE, es).orders[id].exchangeId.Some?
    ensures var c := CoreRun(EMPTY_CORE, es);
            var x := c.orders[id].exchangeId.value;
            && x in c.byExchange
            && (c.byExchange[x] == id <==> LatestClient(Bindings(es), x) == Some(id))
            && (Functional(Bindings(es)) ==> c.byExchange[x] == id)
  {
    var c, bs := CoreRun(EMPTY_CORE, es), Bindings(es);
    IndexHoldsLatestReports(es);
    var x := c.orders[id].exchangeId.value;
    assert FiledUnder(c.byExchange, x, LatestClient(bs, x));
    var i := LatestExchangeIsBound(bs, id);
    BoundHasLatest(bs, i);
    if Functional(bs) {
      FunctionalLeadsBack(bs, id);
    }
  }
}
