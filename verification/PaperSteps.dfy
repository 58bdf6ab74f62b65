/** Each thing that can happen in a paper run keeps orders, messages and ledger in agreement. */
module PaperSteps {
  import opened MarketTypes
  import opened OmsTypes
  import opened RiskGates
  import opened OrderCore
  import opened KalshiAdapter
  import opened PaperVenue
  import opened PaperStream
  import opened PaperAgreement

  /** The parts of a paper run that the agreement is about. */
  datatype Parts = Parts(
    orders: map<string, Order>,
    waiting: seq<Intent>,
    inbound: seq<Message>,
    places: seq<Intent>,
    settled: nat,
    threatened: set<string>,
    published: seq<Update>)

  function Items(p: Parts): seq<Item> {
    Stream(p.inbound, p.waiting)
  }

  predicate Scripted(p: Parts) {
    p.settled <= |p.places| && Script(p.inbound, p.places[p.settled..], Acked(p.inbound))
  }

  predicate Unique(p: Parts) {
    && NoRepeats(p.places + p.waiting) && AllTracked(p.orders, p.places + p.waiting)
    && (forall i :: 0 <= i < |p.places| ==> p.places[i].action == Place)
  }

  /** The status a sent place has before its fill. */
  function SentStatus(p: Parts, i: nat): InFlightStatus {
    if i == p.settled && Acked(p.inbound) then InAccepted else InPending
  }

  predicate WaitingOpen(p: Parts, sure: bool) {
    forall i :: 0 <= i < |p.waiting| && p.waiting[i].action == Place ==>
      Open(p.orders, Items(p), p.threatened, sure, p.waiting[i], InPending)
  }

  predicate SentOpen(p: Parts, sure: bool) {
    forall i :: p.settled <= i < |p.places| ==>
      Open(p.orders, Items(p), p.threatened, sure, p.places[i], SentStatus(p, i))
  }

  predicate SettledClosed(p: Parts, sure: bool) {
    forall i :: 0 <= i < p.settled && i < |p.places| ==> Closed(p.orders, p.threatened, sure, p.places[i])
  }

  predicate OrdersAgree(p: Parts, sure: bool) {
    WaitingOpen(p, sure) && SentOpen(p, sure) && SettledClosed(p, sure)
  }

  ghost predicate LedgerAgrees(p: Parts) {
    p.settled <= |p.places| && NetsAgree(p.published, p.places[..p.settled], p.threatened)
  }

  /** Where cancels may be lost, no threatened place has been sent. */
  predicate Spared(p: Parts, sure: bool) {
    sure || forall i :: 0 <= i < |p.places| ==> p.places[i].clientId !in p.threatened
  }

  ghost predicate Agree(p: Parts, sure: bool) {
    Scripted(p) && Unique(p) && OrdersAgree(p, sure) && LedgerAgrees(p) && Spared(p, sure)
  }

  // ---------------------------------------------------------------- what a place's state depends on

  /** As far as `x` can tell, nothing happened. */
  predicate Unmoved(p: Parts, p': Parts, x: Intent) {
    && x.clientId in p.orders && x.clientId in p'.orders && p'.orders[x.clientId] == p.orders[x.clientId]
    && (x.clientId in p'.threatened <==> x.clientId in p.threatened)
    && (KillFirst(Items(p'), x.clientId) <==> KillFirst(Items(p), x.clientId))
  }

  lemma UnmovedStaysOpen(p: Parts, p': Parts, sure: bool, x: Intent, status: InFlightStatus)
    requires Unmoved(p, p', x) && Open(p.orders, Items(p), p.threatened, sure, x, status)
    ensures Open(p'.orders, Items(p'), p'.threatened, sure, x, status)
  {
  }

  /** Places still to be filled, sent or waiting, are mentioned in what is on its way. */
  lemma WaitingIsMentioned(p: Parts, i: nat)
    requires i < |p.waiting| && p.waiting[i].action == Place
    ensures Keep(p.waiting[i].clientId) in Items(p)
  {
    assert Items(p)[|MessageItems(p.inbound)| + i] == IntentItem(p.waiting[i]);
  }

  lemma SentIsMentioned(p: Parts, i: nat)
    requires Scripted(p) && p.settled <= i < |p.places|
    ensures Keep(p.places[i].clientId) in Items(p)
  {
    ScriptHoldsFills(p.inbound, p.places[p.settled..], Acked(p.inbound), i - p.settled);
  }

  // ---------------------------------------------------------------- an intent leaves the waiting line

  lemma FirstItem(waiting: seq<Intent>)
    requires waiting != []
    ensures IntentItems(waiting) == [IntentItem(waiting[0])] + IntentItems(waiting[1..])
  {
  }

  lemma NoRepeatsWithout(a: seq<Intent>, b: seq<Intent>, orders: map<string, Order>)
    requires b != [] && NoRepeats(a + b) && AllTracked(orders, a + b)
    ensures NoRepeats(a + b[1..]) && AllTracked(orders, a + b[1..])
  {
    var before, after := a + b, a + b[1..];
    forall i, j | 0 <= i < j < |after| && Creates(after[i]) && Creates(after[j])
      ensures after[i].clientId != after[j].clientId
    {
      var i', j' := if i < |a| then i else i + 1, if j < |a| then j else j + 1;
      assert before[i'] == after[i] && before[j'] == after[j];
    }
    forall i | 0 <= i < |after| && Creates(after[i]) ensures after[i].clientId in orders {
      assert before[if i < |a| then i else i + 1] == after[i];
    }
  }

  lemma DroppedIsUnique(p: Parts, p': Parts)
    requires Unique(p) && p.waiting != [] && p'.waiting == p.waiting[1..] && p'.places == p.places
    requires p.orders.Keys <= p'.orders.Keys
    ensures Unique(p')
  {
    NoRepeatsWithout(p.places, p.waiting, p.orders);
  }

  /** The first in the line shares its id with no other waiting or sent order. */
  lemma FirstIsAlone(p: Parts, y: Intent)
    requires Unique(p) && p.waiting != [] && Creates(p.waiting[0]) && Creates(y)
    requires y in p.places || y in p.waiting[1..]
    ensures y.clientId != p.waiting[0].clientId
  {
    var all, k := p.places + p.waiting, |p.places|;
    assert all[k] == p.waiting[0];
    if y in p.places {
      var i :| 0 <= i < |p.places| && p.places[i] == y;
      assert all[i] == y;
    } else {
      var i :| 0 <= i < |p.waiting[1..]| && p.waiting[1..][i] == y;
      assert all[k + 1 + i] == y;
    }
  }

  /** Without an intent about another order ahead of it, or without a reject behind its fill, a place is as it was. */
  lemma StreamWithoutFirst(p: Parts, p': Parts, id: string)
    requires p.waiting != [] && p'.waiting == p.waiting[1..] && p'.inbound == p.inbound
    ensures p.waiting[0].clientId != id ==> (KillFirst(Items(p'), id) <==> KillFirst(Items(p), id))
    ensures IntentItem(p.waiting[0]).Kill? && !KillFirst(Items(p), id) ==> !KillFirst(Items(p'), id)
  {
    var a, h, b := MessageItems(p.inbound), IntentItem(p.waiting[0]), IntentItems(p'.waiting);
    FirstItem(p.waiting);
    if h.id != id {
      KillFirstWithout(a, h, b, id);
    } else if h.Kill? {
      KillFirstConcat(a, [h] + b, id);
      KillFirstConcat(a, b, id);
    }
  }

  /** The places behind the dropped intent keep their state, the orders of all but the dropped one being as before. */
  lemma DroppedKeepsOpen(p: Parts, p': Parts, sure: bool, y: Intent, status: InFlightStatus)
    requires p.waiting != [] && p'.waiting == p.waiting[1..] && p'.inbound == p.inbound && p'.threatened == p.threatened
    requires Unique(p) && y.action == Place && (y in p.places || y in p.waiting[1..])
    requires forall id :: id in p.orders && (Creates(p.waiting[0]) ==> id != p.waiting[0].clientId) ==>
      id in p'.orders && p'.orders[id] == p.orders[id]
    requires sure ==> Creates(p.waiting[0])
    requires Open(p.orders, Items(p), p.threatened, sure, y, status)
    ensures Open(p'.orders, Items(p'), p'.threatened, sure, y, status)
  {
    StreamWithoutFirst(p, p', y.clientId);
    if Creates(p.waiting[0]) {
      FirstIsAlone(p, y);
    }
  }

  lemma DroppedKeepsOrders(p: Parts, p': Parts, sure: bool)
    requires OrdersAgree(p, sure) && Unique(p) && p.waiting != []
    requires p'.waiting == p.waiting[1..] && p'.inbound == p.inbound && p'.threatened == p.threatened
    requires p'.places == p.places && p'.settled == p.settled && (sure ==> Creates(p.waiting[0]))
    requires forall id :: id in p.orders && (Creates(p.waiting[0]) ==> id != p.waiting[0].clientId) ==>
      id in p'.orders && p'.orders[id] == p.orders[id]
    ensures OrdersAgree(p', sure)
  {
    forall i | 0 <= i < |p'.waiting| && p'.waiting[i].action == Place
      ensures Open(p'.orders, Items(p'), p'.threatened, sure, p'.waiting[i], InPending)
    {
      assert p'.waiting[i] == p.waiting[i + 1];
      DroppedKeepsOpen(p, p', sure, p.waiting[i + 1], InPending);
    }
    forall i | p'.settled <= i < |p'.places|
      ensures Open(p'.orders, Items(p'), p'.threatened, sure, p'.places[i], SentStatus(p', i))
    {
      DroppedKeepsOpen(p, p', sure, p.places[i], SentStatus(p, i));
    }
    forall i | 0 <= i < p'.settled && i < |p'.places| ensures Closed(p'.orders, p'.threatened, sure, p'.places[i]) {
      if Creates(p.waiting[0]) {
        FirstIsAlone(p, p.places[i]);
      }
    }
  }

  /** A send that failed. While we are sure of the cancels, only places and replaces fail. */
  lemma FailureAgrees(p: Parts, sure: bool)
    requires Agree(p, sure) && p.waiting != [] && (sure ==> Creates(p.waiting[0]))
    ensures Agree(p.(waiting := p.waiting[1..]), sure)
  {
    var p' := p.(waiting := p.waiting[1..]);
    DroppedIsUnique(p, p');
    DroppedKeepsOrders(p, p', sure);
  }

  /** A rejection by a gate. */
  lemma RejectionAgrees(p: Parts, sure: bool, reason: string, p': Parts)
    requires Agree(p, sure) && p.waiting != [] && Creates(p.waiting[0]) && p.waiting[0].clientId in p.orders
    requires var u := RejectUpdate(p.waiting[0], reason);
             && p' == p.(waiting := p.waiting[1..], orders := Told(p.orders, u), published := p'.published)
             && (p'.published == p.published || p'.published == p.published + [WithSide(p.orders[u.clientId], u)])
    ensures Agree(p', sure)
  {
    var u := RejectUpdate(p.waiting[0], reason);
    DroppedIsUnique(p, p');
    DroppedKeepsOrders(p, p', sure);
    if p'.published != p.published {
      PublishOther(p.published, WithSide(p.orders[u.clientId], u), p.places[..p.settled], p.threatened);
    }
  }

  // ---------------------------------------------------------------- an intent is sent

  lemma SentStreamIsSame(p: Parts, messages: seq<Message>)
    requires p.waiting != [] && MessageItems(messages) == [IntentItem(p.waiting[0])]
    ensures Stream(p.inbound + messages, p.waiting[1..]) == Items(p)
  {
    MessageItemsConcat(p.inbound, messages);
    FirstItem(p.waiting);
    Regroup(MessageItems(p.inbound), [IntentItem(p.waiting[0])], IntentItems(p.waiting[1..]));
  }

  lemma PlaceMessages(ack: Message, fill: Message, x: Intent)
    requires IsAck(ack, x) && IsFill(fill, x) && x.action == Place
    ensures MessageItems([ack, fill]) == [IntentItem(x)]
  {
    assert [ack, fill] == [ack] + [fill];
    MessageItemsConcat([ack], [fill]);
    MessageItemsOne(ack);
    MessageItemsOne(fill);
  }

  lemma PlaceAgrees(p: Parts, sure: bool, ack: Message, fill: Message)
    requires Agree(p, sure) && p.waiting != [] && p.waiting[0].action == Place
    requires IsAck(ack, p.waiting[0]) && IsFill(fill, p.waiting[0])
    requires sure || p.waiting[0].clientId !in p.threatened
    ensures Agree(p.(waiting := p.waiting[1..], inbound := p.inbound + [ack, fill],
                     places := p.places + [p.waiting[0]]), sure)
  {
    var x := p.waiting[0];
    var p' := p.(waiting := p.waiting[1..], inbound := p.inbound + [ack, fill], places := p.places + [x]);
    PlaceMessages(ack, fill, x);
    SentStreamIsSame(p, [ack, fill]);
    ScriptAddsPlace(p.inbound, p.places[p.settled..], Acked(p.inbound), ack, fill, x);
    assert p'.places[p'.settled..] == p.places[p.settled..] + [x];
    assert Acked(p'.inbound) == Acked(p.inbound);
    assert p'.places[..p'.settled] == p.places[..p.settled];
    PlaceKeepsUnique(p, p');
    PlaceKeepsOrders(p, p', sure);
  }

  lemma PlaceKeepsUnique(p: Parts, p': Parts)
    requires Unique(p) && p.waiting != [] && p.waiting[0].action == Place && p'.orders == p.orders
    requires p'.waiting == p.waiting[1..] && p'.places == p.places + [p.waiting[0]]
    ensures Unique(p')
  {
    assert p'.places + p'.waiting == p.places + p.waiting;
  }

  lemma PlaceKeepsOrders(p: Parts, p': Parts, sure: bool)
    requires OrdersAgree(p, sure) && Scripted(p) && p.waiting != [] && p.waiting[0].action == Place
    requires p'.orders == p.orders && p'.threatened == p.threatened && Items(p') == Items(p)
    requires p'.waiting == p.waiting[1..] && p'.places == p.places + [p.waiting[0]] && p'.settled == p.settled
    requires Acked(p'.inbound) == Acked(p.inbound)
    ensures OrdersAgree(p', sure)
  {
    assert Acked(p.inbound) ==> p.settled < |p.places|;
    assert forall i :: 0 <= i < |p'.waiting| ==> p'.waiting[i] == p.waiting[i + 1];
    forall i | p'.settled <= i < |p'.places|
      ensures Open(p'.orders, Items(p'), p'.threatened, sure, p'.places[i], SentStatus(p', i))
    {
      if i < |p.places| {
        assert Open(p.orders, Items(p), p.threatened, sure, p.places[i], SentStatus(p, i));
      }
    }
  }

  /** A cancel or replace went out and will be rejected. */
  lemma OtherAgrees(p: Parts, sure: bool, reject: Message)
    requires Agree(p, sure) && p.waiting != [] && p.waiting[0].action != Place
    requires IsReject(reject) && ParseUpdate(reject).value.clientId == p.waiting[0].clientId
    ensures Agree(p.(waiting := p.waiting[1..], inbound := p.inbound + [reject]), sure)
  {
    var p' := p.(waiting := p.waiting[1..], inbound := p.inbound + [reject]);
    MessageItemsOne(reject);
    SentStreamIsSame(p, [reject]);
    ScriptAddsReject(p.inbound, p.places[p.settled..], Acked(p.inbound), reject);
    DroppedIsUnique(p, p');
    OtherKeepsOrders(p, p', sure);
  }

  lemma OtherKeepsOrders(p: Parts, p': Parts, sure: bool)
    requires OrdersAgree(p, sure) && p.waiting != [] && p'.orders == p.orders && p'.threatened == p.threatened
    requires p'.waiting == p.waiting[1..] && p'.places == p.places && p'.settled == p.settled
    requires Items(p') == Items(p) && Acked(p'.inbound) == Acked(p.inbound)
    ensures OrdersAgree(p', sure)
  {
    assert forall i :: 0 <= i < |p'.waiting| ==> p'.waiting[i] == p.waiting[i + 1];
    forall i | p'.settled <= i < |p'.places|
      ensures Open(p'.orders, Items(p'), p'.threatened, sure, p'.places[i], SentStatus(p', i))
    {
      assert Open(p.orders, Items(p), p.threatened, sure, p.places[i], SentStatus(p, i));
    }
  }

  // ---------------------------------------------------------------- a submission

  /** What an accepted submission does; a place met by a reject on its way is threatened. */
  function Submitted(p: Parts, c: Core, requestId: nat, x: Intent): Parts
    requires PolicyCheck(c, x).None?
  {
    p.(orders := Track(c, requestId, x).0.orders, waiting := p.waiting + [x],
       threatened := if x.action == Place && Kill(x.clientId) in Items(p) then p.threatened + {x.clientId}
                     else p.threatened)
  }

  lemma SubmittedOrders(c: Core, requestId: nat, x: Intent)
    requires PolicyCheck(c, x).None?
    ensures var orders := Track(c, requestId, x).0.orders;
            && (forall id :: id in c.orders ==> id in orders && orders[id] == c.orders[id])
            && (Creates(x) ==> x.clientId !in c.orders)
            && (x.action == Place ==> Asks(orders, x) && orders[x.clientId].status == InPending)
  {
  }

  lemma SubmittedItems(p: Parts, x: Intent)
    ensures Stream(p.inbound, p.waiting + [x]) == Items(p) + [IntentItem(x)]
  {
    IntentItemsConcat(p.waiting, [x]);
    assert IntentItems([x]) == [IntentItem(x)];
    Regroup(MessageItems(p.inbound), IntentItems(p.waiting), [IntentItem(x)]);
  }

  /** What is on its way mentions fills of tracked orders only. */
  lemma KeepsAreTracked(p: Parts, id: string)
    requires Scripted(p) && Unique(p) && Keep(id) in Items(p)
    ensures id in p.orders
  {
    var all := p.places + p.waiting;
    if Keep(id) in MessageItems(p.inbound) {
      var i := FillsAreScripted(p.inbound, p.places[p.settled..], Acked(p.inbound), id);
      assert all[p.settled + i] == p.places[p.settled..][i];
    } else {
      var i :| 0 <= i < |p.waiting| && IntentItems(p.waiting)[i] == Keep(id);
      assert all[|p.places| + i] == p.waiting[i];
    }
  }

  lemma SubmissionKeepsOpen(p: Parts, c: Core, requestId: nat, x: Intent, sure: bool, y: Intent, status: InFlightStatus)
    requires p.orders == c.orders && PolicyCheck(c, x).None? && Open(p.orders, Items(p), p.threatened, sure, y, status)
    requires Keep(y.clientId) in Items(p)
    ensures var p' := Submitted(p, c, requestId, x); Open(p'.orders, Items(p'), p'.threatened, sure, y, status)
  {
    SubmittedOrders(c, requestId, x);
    SubmittedItems(p, x);
    KillFirstAppended(Items(p), IntentItem(x), y.clientId);
  }

  lemma SubmittedIsOpen(p: Parts, c: Core, requestId: nat, x: Intent, sure: bool)
    requires Scripted(p) && Unique(p) && p.orders == c.orders && PolicyCheck(c, x).None? && x.action == Place
    requires x.clientId !in p.threatened
    ensures var p' := Submitted(p, c, requestId, x); Open(p'.orders, Items(p'), p'.threatened, sure, x, InPending)
  {
    SubmittedOrders(c, requestId, x);
    SubmittedItems(p, x);
    KillFirstAppended(Items(p), IntentItem(x), x.clientId);
    if Keep(x.clientId) in Items(p) {
      KeepsAreTracked(p, x.clientId);
    } else {
      KillWithoutKeep(Items(p), x.clientId);
    }
  }

  lemma SubmissionIsUnique(p: Parts, c: Core, requestId: nat, x: Intent, p': Parts)
    requires Unique(p) && p.orders == c.orders && PolicyCheck(c, x).None?
    requires p'.orders == Track(c, requestId, x).0.orders && p'.waiting == p.waiting + [x] && p'.places == p.places
    ensures Unique(p')
  {
    assert p'.places + p'.waiting == p.places + p.waiting + [x];
  }

  lemma SubmissionKeepsOrders(p: Parts, c: Core, requestId: nat, x: Intent, sure: bool)
    requires OrdersAgree(p, sure) && Scripted(p) && Unique(p) && p.orders == c.orders && PolicyCheck(c, x).None?
    requires p.threatened <= p.orders.Keys
    ensures OrdersAgree(Submitted(p, c, requestId, x), sure)
  {
    var p' := Submitted(p, c, requestId, x);
    SubmittedOrders(c, requestId, x);
    forall i | 0 <= i < |p'.waiting| && p'.waiting[i].action == Place
      ensures Open(p'.orders, Items(p'), p'.threatened, sure, p'.waiting[i], InPending)
    {
      if i < |p.waiting| {
        WaitingIsMentioned(p, i);
        SubmissionKeepsOpen(p, c, requestId, x, sure, p.waiting[i], InPending);
      } else {
        SubmittedIsOpen(p, c, requestId, x, sure);
      }
    }
    forall i | p'.settled <= i < |p'.places|
      ensures Open(p'.orders, Items(p'), p'.threatened, sure, p'.places[i], SentStatus(p', i))
    {
      SentIsMentioned(p, i);
      SubmissionKeepsOpen(p, c, requestId, x, sure, p.places[i], SentStatus(p, i));
    }
  }

  lemma PlacesAreTracked(p: Parts, id: string)
    requires Unique(p) && id !in p.orders
    ensures forall i :: 0 <= i < |p.places| ==> p.places[i].clientId != id
  {
    forall i | 0 <= i < |p.places| ensures p.places[i].clientId != id {
      assert (p.places + p.waiting)[i] == p.places[i];
    }
  }

  lemma SubmissionAgrees(p: Parts, c: Core, requestId: nat, x: Intent, sure: bool)
    requires Agree(p, sure) && p.orders == c.orders && PolicyCheck(c, x).None? && p.threatened <= p.orders.Keys
    ensures var p' := Submitted(p, c, requestId, x); Agree(p', sure) && p'.threatened <= p'.orders.Keys
  {
    var p' := Submitted(p, c, requestId, x);
    SubmittedOrders(c, requestId, x);
    SubmissionIsUnique(p, c, requestId, x, p');
    SubmissionKeepsOrders(p, c, requestId, x, sure);
    if x.action == Place {
      PlacesAreTracked(p, x.clientId);
      forall market
        ensures SignedSum(p.places[..p.settled], p'.threatened, market)
                == SignedSum(p.places[..p.settled], p.threatened, market)
      {
        SignedSumOfOthers(p.places[..p.settled], p.threatened, x.clientId, market);
      }
    }
  }

  // ---------------------------------------------------------------- a message arrives

  /** What receiving the first message, read as `u`, does. */
  function Received(p: Parts, u: Update): Parts
    requires p.inbound != []
  {
    p.(inbound := p.inbound[1..], orders := Told(p.orders, u),
       settled := if p.inbound[0].FillMessage? then p.settled + 1 else p.settled,
       published := if Takes(p.orders, u) then p.published + [WithSide(p.orders[u.clientId], u)] else p.published)
  }

  lemma ReceivedItems(p: Parts, u: Update)
    requires p.inbound != []
    ensures Items(p) == MessageItem(p.inbound[0]) + Items(Received(p, u))
  {
    Regroup(MessageItem(p.inbound[0]), MessageItems(p.inbound[1..]), IntentItems(p.waiting));
  }

  lemma ReceivedIsUnique(p: Parts, u: Update)
    requires Unique(p) && p.inbound != []
    ensures Unique(Received(p, u))
  {
  }

  /** The place at position `k` shares its id with no other place, sent or waiting. */
  lemma PlacedIsAlone(p: Parts, k: nat)
    requires Unique(p) && k < |p.places|
    ensures forall i :: 0 <= i < |p.places| && i != k ==> p.places[i].clientId != p.places[k].clientId
    ensures forall i :: 0 <= i < |p.waiting| && p.waiting[i].action == Place ==>
              p.waiting[i].clientId != p.places[k].clientId
  {
    var all := p.places + p.waiting;
    assert all[k] == p.places[k];
    forall i | 0 <= i < |p.places| && i != k ensures p.places[i].clientId != p.places[k].clientId {
      assert all[i] == p.places[i];
    }
    forall i | 0 <= i < |p.waiting| && p.waiting[i].action == Place
      ensures p.waiting[i].clientId != p.places[k].clientId
    {
      assert all[|p.places| + i] == p.waiting[i];
    }
  }

  /** A message about one order leaves the places of all others alone. */
  lemma OthersUnmoved(p: Parts, u: Update, y: Intent)
    requires p.inbound != [] && ParseUpdate(p.inbound[0]) == Some(u) && y.clientId != u.clientId
    requires y.clientId in p.orders
    ensures Unmoved(p, Received(p, u), y)
  {
    ReceivedItems(p, u);
    KillFirstConcat(MessageItem(p.inbound[0]), Items(Received(p, u)), y.clientId);
  }

  lemma OtherStaysOpen(p: Parts, u: Update, sure: bool, y: Intent, status: InFlightStatus)
    requires p.inbound != [] && ParseUpdate(p.inbound[0]) == Some(u) && y.clientId != u.clientId
    requires Open(p.orders, Items(p), p.threatened, sure, y, status)
    ensures var p' := Received(p, u); Open(p'.orders, Items(p'), p'.threatened, sure, y, status)
  {
    OthersUnmoved(p, u, y);
    UnmovedStaysOpen(p, Received(p, u), sure, y, status);
  }

  /** A message about a sent place leaves those still waiting alone. */
  lemma WaitingStaysOpen(p: Parts, u: Update, sure: bool)
    requires WaitingOpen(p, sure) && Unique(p) && p.inbound != [] && ParseUpdate(p.inbound[0]) == Some(u)
    requires p.settled < |p.places| && u.clientId == p.places[p.settled].clientId
    ensures WaitingOpen(Received(p, u), sure)
  {
    PlacedIsAlone(p, p.settled);
    forall i | 0 <= i < |p.waiting| && p.waiting[i].action == Place
      ensures var p' := Received(p, u); Open(p'.orders, Items(p'), p'.threatened, sure, p.waiting[i], InPending)
    {
      OtherStaysOpen(p, u, sure, p.waiting[i], InPending);
    }
  }

  lemma SettledStaysClosed(p: Parts, u: Update, sure: bool, i: nat)
    requires p.inbound != [] && i < p.settled <= |p.places| && Closed(p.orders, p.threatened, sure, p.places[i])
    requires u.status == Rejected || u.clientId != p.places[i].clientId
    ensures Closed(Told(p.orders, u), p.threatened, sure, p.places[i])
  {
  }

  /** With only its fill left on the way, a place has no reject ahead of it. */
  lemma FillIsNext(p: Parts)
    requires Scripted(p) && p.inbound != [] && (p.inbound[0].AckMessage? || p.inbound[0].FillMessage?)
    ensures p.settled < |p.places| && !KillFirst(Items(p), p.places[p.settled].clientId)
  {
    var x := p.places[p.settled];
    if p.inbound[0].AckMessage? {
      var rest := p.inbound[1..];
      AckedShows(rest, p.places[p.settled..], true);
      assert MessageItems(p.inbound) == MessageItems(rest);
      assert MessageItems(rest)[0] == Keep(x.clientId);
    } else {
      assert MessageItems(p.inbound)[0] == Keep(x.clientId);
    }
    assert Items(p)[0] == Keep(x.clientId);
  }

  // ---------------------------------------------------------------- an ack

  lemma AckOpens(p: Parts, u: Update, sure: bool)
    requires Agree(p, sure) && p.inbound != [] && p.inbound[0].AckMessage? && ParseUpdate(p.inbound[0]) == Some(u)
    ensures var p' := Received(p, u);
            && p.settled < |p.places| && u.clientId == p.places[p.settled].clientId
            && Acked(p'.inbound) && !Acked(p.inbound) && Items(p') == Items(p)
            && Open(p'.orders, Items(p'), p'.threatened, sure, p.places[p.settled], InAccepted)
            && (Takes(p.orders, u) <==> u.clientId !in p.threatened)
  {
    var x := p.places[p.settled];
    FillIsNext(p);
    AckedShows(p.inbound[1..], p.places[p.settled..], true);
    ReceivedItems(p, u);
    assert Open(p.orders, Items(p), p.threatened, sure, x, SentStatus(p, p.settled));
  }

  lemma AckKeepsOrders(p: Parts, u: Update, sure: bool)
    requires Agree(p, sure) && p.inbound != [] && p.inbound[0].AckMessage? && ParseUpdate(p.inbound[0]) == Some(u)
    ensures OrdersAgree(Received(p, u), sure)
  {
    var p' := Received(p, u);
    AckOpens(p, u, sure);
    PlacedIsAlone(p, p.settled);
    WaitingStaysOpen(p, u, sure);
    forall i | p'.settled <= i < |p'.places|
      ensures Open(p'.orders, Items(p'), p'.threatened, sure, p'.places[i], SentStatus(p', i))
    {
      if i != p.settled {
        OtherStaysOpen(p, u, sure, p.places[i], SentStatus(p, i));
      }
    }
    forall i | 0 <= i < p'.settled && i < |p'.places| ensures Closed(p'.orders, p'.threatened, sure, p'.places[i]) {
      SettledStaysClosed(p, u, sure, i);
    }
  }

  lemma AckAgrees(p: Parts, u: Update, sure: bool)
    requires Agree(p, sure) && p.inbound != [] && p.inbound[0].AckMessage? && ParseUpdate(p.inbound[0]) == Some(u)
    ensures Agree(Received(p, u), sure) && u.clientId in p.orders
  {
    AckOpens(p, u, sure);
    AckKeepsOrders(p, u, sure);
    ReceivedIsUnique(p, u);
    if Takes(p.orders, u) {
      PublishOther(p.published, WithSide(p.orders[u.clientId], u), p.places[..p.settled], p.threatened);
    }
  }

  // ---------------------------------------------------------------- a fill

  lemma FillCloses(p: Parts, u: Update, sure: bool)
    requires Agree(p, sure) && p.inbound != [] && p.inbound[0].FillMessage? && ParseUpdate(p.inbound[0]) == Some(u)
    ensures var p' := Received(p, u);
            && p.settled < |p.places| && u.clientId == p.places[p.settled].clientId
            && !Acked(p'.inbound) && Acked(p.inbound) && u.clientId in p.orders
            && Closed(p'.orders, p'.threatened, sure, p.places[p.settled])
            && (Takes(p.orders, u) <==> u.clientId !in p.threatened)
  {
    var x := p.places[p.settled];
    FillIsNext(p);
    AckedShows(p.inbound[1..], p.places[p.settled..][1..], false);
    assert Open(p.orders, Items(p), p.threatened, sure, x, SentStatus(p, p.settled));
    assert x.qty > 0;
  }

  lemma FillKeepsOrders(p: Parts, u: Update, sure: bool)
    requires Agree(p, sure) && p.inbound != [] && p.inbound[0].FillMessage? && ParseUpdate(p.inbound[0]) == Some(u)
    ensures OrdersAgree(Received(p, u), sure)
  {
    var p' := Received(p, u);
    FillCloses(p, u, sure);
    PlacedIsAlone(p, p.settled);
    WaitingStaysOpen(p, u, sure);
    forall i | p'.settled <= i < |p'.places|
      ensures Open(p'.orders, Items(p'), p'.threatened, sure, p'.places[i], SentStatus(p', i))
    {
      OtherStaysOpen(p, u, sure, p.places[i], SentStatus(p, i));
    }
    forall i | 0 <= i < p'.settled && i < |p'.places| ensures Closed(p'.orders, p'.threatened, sure, p'.places[i]) {
      if i < p.settled {
        SettledStaysClosed(p, u, sure, i);
      }
    }
  }

  lemma FillAgrees(p: Parts, u: Update, sure: bool)
    requires Agree(p, sure) && p.inbound != [] && p.inbound[0].FillMessage? && ParseUpdate(p.inbound[0]) == Some(u)
    ensures Agree(Received(p, u), sure) && u.clientId in p.orders
  {
    var p', x := Received(p, u), p.places[p.settled];
    FillCloses(p, u, sure);
    FillKeepsOrders(p, u, sure);
    ReceivedIsUnique(p, u);
    assert p.places[p.settled..][1..] == p'.places[p'.settled..];
    assert p'.places[..p'.settled] == p.places[..p.settled] + [x];
    FillIsBooked(p, u);
  }

  lemma FillIsBooked(p: Parts, u: Update)
    requires Scripted(p) && LedgerAgrees(p) && p.inbound != [] && p.inbound[0].FillMessage?
    requires ParseUpdate(p.inbound[0]) == Some(u) && u.clientId in p.orders
    requires p.settled < |p.places| && u.clientId == p.places[p.settled].clientId
    requires Takes(p.orders, u) <==> u.clientId !in p.threatened
    ensures NetsAgree(Received(p, u).published, p.places[..p.settled] + [p.places[p.settled]], p.threatened)
  {
    var x := p.places[p.settled];
    if u.clientId in p.threatened {
      RefuseFill(p.published, x, p.places[..p.settled], p.threatened);
    } else {
      FillUpdateFills(x, u.exchangeId.value, p.orders[u.clientId]);
      PublishFill(p.published, x, WithSide(p.orders[u.clientId], u), p.places[..p.settled], p.threatened);
    }
  }

  // ---------------------------------------------------------------- a reject

  /** A reject ends the threatened place it reaches first, and no other. */
  lemma RejectKeepsOpen(p: Parts, u: Update, sure: bool, y: Intent, status: InFlightStatus)
    requires p.inbound != [] && IsReject(p.inbound[0]) && ParseUpdate(p.inbound[0]) == Some(u)
    requires Open(p.orders, Items(p), p.threatened, sure, y, status)
    ensures var p' := Received(p, u); Open(p'.orders, Items(p'), p'.threatened, sure, y, status)
  {
    if y.clientId != u.clientId {
      OtherStaysOpen(p, u, sure, y, status);
    } else {
      ReceivedItems(p, u);
      assert Items(p)[0] == Kill(u.clientId);
    }
  }

  lemma RejectKeepsOrders(p: Parts, u: Update, sure: bool)
    requires Agree(p, sure) && p.inbound != [] && p.inbound[0].RejectMessage? && ParseUpdate(p.inbound[0]) == Some(u)
    ensures OrdersAgree(Received(p, u), sure)
  {
    var p' := Received(p, u);
    AckedShows(p'.inbound, p.places[p.settled..], false);
    forall i | 0 <= i < |p'.waiting| && p'.waiting[i].action == Place
      ensures Open(p'.orders, Items(p'), p'.threatened, sure, p'.waiting[i], InPending)
    {
      RejectKeepsOpen(p, u, sure, p.waiting[i], InPending);
    }
    forall i | p'.settled <= i < |p'.places|
      ensures Open(p'.orders, Items(p'), p'.threatened, sure, p'.places[i], SentStatus(p', i))
    {
      RejectKeepsOpen(p, u, sure, p.places[i], SentStatus(p, i));
    }
    forall i | 0 <= i < p'.settled && i < |p'.places| ensures Closed(p'.orders, p'.threatened, sure, p'.places[i]) {
      SettledStaysClosed(p, u, sure, i);
    }
  }

  lemma RejectAgrees(p: Parts, u: Update, sure: bool)
    requires Agree(p, sure) && p.inbound != [] && p.inbound[0].RejectMessage? && ParseUpdate(p.inbound[0]) == Some(u)
    ensures Agree(Received(p, u), sure) && u.exchangeId.None?
  {
    RejectKeepsOrders(p, u, sure);
    ReceivedIsUnique(p, u);
    AckedShows(Received(p, u).inbound, p.places[p.settled..], false);
    if Takes(p.orders, u) {
      PublishOther(p.published, WithSide(p.orders[u.clientId], u), p.places[..p.settled], p.threatened);
    }
  }

  /**
   Whatever message comes first, it can be read, is about a known order or names no exchange id, and keeps the
   agreement.
   */
  lemma ReceiptAgrees(p: Parts, sure: bool)
    requires Agree(p, sure) && p.inbound != []
    ensures ParseUpdate(p.inbound[0]).Some?
    ensures var u := ParseUpdate(p.inbound[0]).value;
            (u.clientId in p.orders || u.exchangeId.None?) && Agree(Received(p, u), sure)
  {
    assert ParseUpdate(p.inbound[0]).Some?;
    var u := ParseUpdate(p.inbound[0]).value;
    match p.inbound[0]
    case AckMessage(_, _, _, _) => AckAgrees(p, u, sure);
    case FillMessage(_, _, _, _, _, _) => FillAgrees(p, u, sure);
    case RejectMessage(_, _, _, _) => RejectAgrees(p, u, sure);
    case OtherMessage =>
  }
}
