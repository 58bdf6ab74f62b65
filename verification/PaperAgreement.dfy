/** What the tracked orders, the messages under way and the ledger say about each other in a paper run. */
module PaperAgreement {
  import opened MarketTypes
  import opened OmsTypes
  import opened RiskGates
  import opened OrderCore
  import opened KalshiAdapter
  import opened LedgerModel
  import LedgerProperties
  import OrderFills
  import opened PaperVenue
  import opened PaperStream

  // ---------------------------------------------------------------- the venue's script

  predicate IsAck(m: Message, x: Intent) {
    && m.AckMessage? && m.exchangeId.Some?
    && ParseUpdate(m) == Some(AckUpdate(x, m.exchangeId.value))
  }

  predicate IsFill(m: Message, x: Intent) {
    && m.FillMessage? && m.exchangeId.Some? && ValidPlace(x)
    && ParseUpdate(m) == Some(FillUpdate(x, m.exchangeId.value))
  }

  predicate IsReject(m: Message) {
    && m.RejectMessage? && m.exchangeId.None? && ParseUpdate(m).Some?
  }

  /**
   The messages are the acks and fills of `places`, in order, with rejects between; `acked` if only the fill is left of
   the first.
   */
  predicate Script(ms: seq<Message>, places: seq<Intent>, acked: bool) {
    if ms == [] then places == [] && !acked
    else match ms[0]
      case AckMessage(_, _, _, _) =>
        !acked && places != [] && IsAck(ms[0], places[0]) && Script(ms[1..], places, true)
      case FillMessage(_, _, _, _, _, _) =>
        acked && places != [] && IsFill(ms[0], places[0]) && Script(ms[1..], places[1..], false)
      case RejectMessage(_, _, _, _) =>
        !acked && IsReject(ms[0]) && Script(ms[1..], places, false)
      case OtherMessage => false
  }

  /** Whether the next fill's order has been acknowledged. */
  predicate Acked(ms: seq<Message>) {
    ms != [] && ms[0].FillMessage?
  }

  lemma {:induction false} AckedShows(ms: seq<Message>, places: seq<Intent>, acked: bool)
    requires Script(ms, places, acked)
    ensures acked == Acked(ms)
  {
    if ms != [] {
      match ms[0]
      case AckMessage(_, _, _, _) =>
      case FillMessage(_, _, _, _, _, _) =>
      case RejectMessage(_, _, _, _) =>
      case OtherMessage =>
    }
  }

  lemma {:induction false} ScriptAddsPlace(ms: seq<Message>, places: seq<Intent>, acked: bool,
                                           ack: Message, fill: Message, x: Intent)
    requires Script(ms, places, acked) && IsAck(ack, x) && IsFill(fill, x)
    ensures Script(ms + [ack, fill], places + [x], acked)
    decreases |ms|
  {
    var ms', places' := ms + [ack, fill], places + [x];
    if ms == [] {
      assert ms' == [ack, fill] && places' == [x];
      assert ms'[1..] == [fill] && [fill][1..] == [] && [x][1..] == [];
      assert Script([], [], false);
      assert Script([fill], [x], true);
    } else {
      assert ms'[1..] == ms[1..] + [ack, fill];
      if places != [] {
        assert places'[1..] == places[1..] + [x];
      }
      match ms[0]
      case AckMessage(_, _, _, _) => ScriptAddsPlace(ms[1..], places, true, ack, fill, x);
      case FillMessage(_, _, _, _, _, _) => ScriptAddsPlace(ms[1..], places[1..], false, ack, fill, x);
      case RejectMessage(_, _, _, _) => ScriptAddsPlace(ms[1..], places, false, ack, fill, x);
      case OtherMessage =>
    }
  }

  lemma {:induction false} ScriptAddsReject(ms: seq<Message>, places: seq<Intent>, acked: bool, reject: Message)
    requires Script(ms, places, acked) && IsReject(reject)
    ensures Script(ms + [reject], places, acked)
    decreases |ms|
  {
    var ms' := ms + [reject];
    if ms == [] {
      assert ms' == [reject] && ms'[1..] == [];
    } else {
      assert ms'[1..] == ms[1..] + [reject];
      match ms[0]
      case AckMessage(_, _, _, _) => ScriptAddsReject(ms[1..], places, true, reject);
      case FillMessage(_, _, _, _, _, _) => ScriptAddsReject(ms[1..], places[1..], false, reject);
      case RejectMessage(_, _, _, _) => ScriptAddsReject(ms[1..], places, false, reject);
      case OtherMessage =>
    }
  }

  /** Every place still in the script has its fill on the way. */
  lemma {:induction false} ScriptHoldsFills(ms: seq<Message>, places: seq<Intent>, acked: bool, i: nat)
    requires Script(ms, places, acked) && i < |places|
    ensures Keep(places[i].clientId) in MessageItems(ms)
    decreases |ms|
  {
    match ms[0]
    case AckMessage(_, _, _, _) => ScriptHoldsFills(ms[1..], places, true, i);
    case FillMessage(id, _, _, _, _, _) =>
      if i > 0 {
        ScriptHoldsFills(ms[1..], places[1..], false, i - 1);
      } else {
        assert MessageItem(ms[0]) == [Keep(places[0].clientId)];
      }
    case RejectMessage(_, _, _, _) => ScriptHoldsFills(ms[1..], places, false, i);
  }

  /** And every fill on the way is that of a place still in the script. */
  lemma {:induction false} FillsAreScripted(ms: seq<Message>, places: seq<Intent>, acked: bool, id: string)
    returns (i: nat)
    requires Script(ms, places, acked) && Keep(id) in MessageItems(ms)
    ensures i < |places| && places[i].clientId == id
    decreases |ms|
  {
    match ms[0]
    case AckMessage(_, _, _, _) =>
      i := FillsAreScripted(ms[1..], places, true, id);
    case FillMessage(_, _, _, _, _, _) =>
      if id == places[0].clientId {
        i := 0;
      } else {
        i := FillsAreScripted(ms[1..], places[1..], false, id);
        i := i + 1;
      }
    case RejectMessage(_, _, _, _) =>
      i := FillsAreScripted(ms[1..], places, false, id);
  }

  // ---------------------------------------------------------------- what the orders say

  predicate Asks(orders: map<string, Order>, x: Intent) {
    x.clientId in orders && orders[x.clientId].requested == x.qty
  }

  /**
   A place whose fill has not come yet. Unthreatened, it has the status its messages so far gave it and no reject will
   reach it first. Threatened, a reject will reach it first or has done so; of that we are `sure` only if no cancel is
   ever lost on its way to the venue.
   */
  predicate Open(orders: map<string, Order>, items: seq<Item>, threatened: set<string>, sure: bool,
                 x: Intent, status: InFlightStatus) {
    && Asks(orders, x)
    && (x.clientId !in threatened ==> orders[x.clientId].status == status && !KillFirst(items, x.clientId))
    && (x.clientId in threatened && sure ==>
          || orders[x.clientId].status == InRejected
          || (orders[x.clientId].status == InPending && KillFirst(items, x.clientId)))
  }

  /** A place whose fill has come: filled for all it asked, or if threatened rejected. */
  predicate Closed(orders: map<string, Order>, threatened: set<string>, sure: bool, x: Intent) {
    && Asks(orders, x)
    && (x.clientId !in threatened ==>
          orders[x.clientId].status == InFilled && orders[x.clientId].filled == orders[x.clientId].requested)
    && (x.clientId in threatened && sure ==> orders[x.clientId].status == InRejected)
  }

  /** What telling the core an update about a known client id, or without an exchange id, does to the orders. */
  predicate Takes(orders: map<string, Order>, u: Update) {
    && u.clientId in orders && ToInFlight(u.status).Some?
    && CanTransition(orders[u.clientId].status, ToInFlight(u.status).value)
  }

  function Told(orders: map<string, Order>, u: Update): map<string, Order> {
    if Takes(orders, u) then
      orders[u.clientId := UpdatedOrder(orders[u.clientId], ToInFlight(u.status).value, u)]
    else orders
  }

  lemma ApplyTells(c: Core, u: Update)
    requires u.clientId in c.orders || u.exchangeId.None?
    ensures Apply(c, u).0.orders == Told(c.orders, u)
    ensures OutcomeOf(c, u) == Applied <==> Takes(c.orders, u)
    ensures Takes(c.orders, u) ==> Apply(c, u).1 == WithSide(c.orders[u.clientId], u)
  {
  }

  // ---------------------------------------------------------------- no id twice

  predicate NoRepeats(xs: seq<Intent>) {
    forall i, j :: 0 <= i < j < |xs| && Creates(xs[i]) && Creates(xs[j]) ==> xs[i].clientId != xs[j].clientId
  }

  predicate AllTracked(orders: map<string, Order>, xs: seq<Intent>) {
    forall i :: 0 <= i < |xs| && Creates(xs[i]) ==> xs[i].clientId in orders
  }

  // ---------------------------------------------------------------- what the ledger says

  /** Signed quantity of the places of one market, the threatened ones left out. */
  function SignedSum(places: seq<Intent>, threatened: set<string>, market: string): int {
    if places == [] then 0
    else
      var x := places[|places| - 1];
      SignedSum(places[..|places| - 1], threatened, market)
      + if x.market == market && x.clientId !in threatened then SignedQty(x.side, x.qty) else 0
  }

  lemma {:induction false} SignedSumOfOthers(places: seq<Intent>, threatened: set<string>, id: string, market: string)
    requires forall i :: 0 <= i < |places| ==> places[i].clientId != id
    ensures SignedSum(places, threatened + {id}, market) == SignedSum(places, threatened, market)
  {
    if places != [] {
      SignedSumOfOthers(places[..|places| - 1], threatened, id, market);
    }
  }

  function Net(published: seq<Update>, market: string): int {
    PositionAt(OnUpdates(EMPTY_LEDGER, published), Key(Kalshi, market)).net
  }

  ghost predicate NetsAgree(published: seq<Update>, places: seq<Intent>, threatened: set<string>) {
    forall market :: Net(published, market) == SignedSum(places, threatened, market)
  }

  lemma PublishOther(published: seq<Update>, u: Update, places: seq<Intent>, threatened: set<string>)
    requires NetsAgree(published, places, threatened) && !Fills(u)
    ensures NetsAgree(published + [u], places, threatened)
  {
    LedgerProperties.OnUpdatesSnoc(EMPTY_LEDGER, published, u);
  }

  lemma PublishMovesNet(published: seq<Update>, u: Update, market: string)
    requires Fills(u) && u.exchange == Kalshi
    ensures Net(published + [u], market)
            == Net(published, market) + if FillMarket(u) == market then FillQty(u) else 0
  {
    LedgerProperties.OnUpdatesSnoc(EMPTY_LEDGER, published, u);
    OrderFills.UpdateMovesNet(OnUpdates(EMPTY_LEDGER, published), u, Key(Kalshi, market));
  }

  lemma PublishFill(published: seq<Update>, x: Intent, u: Update, places: seq<Intent>, threatened: set<string>)
    requires NetsAgree(published, places, threatened) && ValidPlace(x) && x.clientId !in threatened
    requires Fills(u) && u.exchange == Kalshi && FillMarket(u) == x.market && FillQty(u) == SignedQty(x.side, x.qty)
    ensures NetsAgree(published + [u], places + [x], threatened)
  {
    assert (places + [x])[..|places|] == places;
    forall market ensures Net(published + [u], market) == SignedSum(places + [x], threatened, market) {
      PublishMovesNet(published, u, market);
    }
  }

  lemma RefuseFill(published: seq<Update>, x: Intent, places: seq<Intent>, threatened: set<string>)
    requires NetsAgree(published, places, threatened) && x.clientId in threatened
    ensures NetsAgree(published, places + [x], threatened)
  {
    assert (places + [x])[..|places|] == places;
  }

  /** The venue's fill of a valid place books exactly the placed quantity. */
  lemma FillUpdateFills(x: Intent, exchangeId: string, o: Order)
    requires ValidPlace(x)
    ensures var u := WithSide(o, FillUpdate(x, exchangeId));
            Fills(u) && u.exchange == Kalshi && FillMarket(u) == x.market && FillQty(u) == SignedQty(x.side, x.qty)
  {
  }
}
