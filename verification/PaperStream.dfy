/** What is on its way to the orders in a paper run: the venue's messages, then what is still to be sent to it. */
module PaperStream {
  import opened MarketTypes
  import opened OmsTypes
  import opened KalshiAdapter

  /** The fill of a place, or a reject that would end the order it names. */
  datatype Item = Keep(id: string) | Kill(id: string)

  function MessageItem(m: Message): seq<Item> {
    match m
    case FillMessage(id, _, _, _, _, _) => if id.Some? then [Keep(id.value)] else []
    case RejectMessage(id, _, _, _) => if id.Some? then [Kill(id.value)] else []
    case _ => []
  }

  function MessageItems(ms: seq<Message>): seq<Item> {
    if ms == [] then [] else MessageItem(ms[0]) + MessageItems(ms[1..])
  }

  /** A place will be filled; the venue answers anything else with a reject of the request's own id. */
  function IntentItem(x: Intent): Item {
    if x.action == Place then Keep(x.clientId) else Kill(x.clientId)
  }

  function IntentItems(xs: seq<Intent>): (items: seq<Item>)
    ensures |items| == |xs| && forall i :: 0 <= i < |xs| ==> items[i] == IntentItem(xs[i])
  {
    if xs == [] then [] else [IntentItem(xs[0])] + IntentItems(xs[1..])
  }

  /** Everything on its way, in the order in which it will arrive. */
  function Stream(inbound: seq<Message>, line: seq<Intent>): seq<Item> {
    MessageItems(inbound) + IntentItems(line)
  }

  predicate Mentions(items: seq<Item>, id: string) {
    Keep(id) in items || Kill(id) in items
  }

  /** Of all that is on its way to an order, a reject comes first. */
  predicate KillFirst(items: seq<Item>, id: string) {
    items != [] && (items[0] == Kill(id) || (items[0] != Keep(id) && KillFirst(items[1..], id)))
  }

  // ---------------------------------------------------------------- laws

  lemma {:induction false} MessageItemsConcat(a: seq<Message>, b: seq<Message>)
    ensures MessageItems(a + b) == MessageItems(a) + MessageItems(b)
    decreases |a|
  {
    if a == [] {
      assert a + b == b;
    } else {
      assert (a + b)[1..] == a[1..] + b;
      MessageItemsConcat(a[1..], b);
    }
  }

  lemma {:induction false} IntentItemsConcat(a: seq<Intent>, b: seq<Intent>)
    ensures IntentItems(a + b) == IntentItems(a) + IntentItems(b)
  {
    assert |IntentItems(a + b)| == |IntentItems(a) + IntentItems(b)|;
    forall i | 0 <= i < |a + b| ensures IntentItems(a + b)[i] == (IntentItems(a) + IntentItems(b))[i] {
    }
  }

  lemma MessageItemsOne(m: Message)
    ensures MessageItems([m]) == MessageItem(m)
  {
    assert [m][1..] == [];
    assert MessageItems([m]) == MessageItem(m) + MessageItems([]);
  }

  lemma Regroup<T>(a: seq<T>, b: seq<T>, c: seq<T>)
    ensures (a + b) + c == a + (b + c)
  {
  }

  lemma {:induction false} KillFirstIsMentioned(items: seq<Item>, id: string)
    requires KillFirst(items, id)
    ensures Kill(id) in items
  {
    if items[0] != Kill(id) {
      KillFirstIsMentioned(items[1..], id);
    }
  }

  lemma {:induction false} KillWithoutKeep(items: seq<Item>, id: string)
    requires Keep(id) !in items
    ensures KillFirst(items, id) <==> Kill(id) in items
  {
    if items != [] && items[0] != Kill(id) {
      KillWithoutKeep(items[1..], id);
      assert Kill(id) in items <==> Kill(id) in items[1..];
    }
  }

  /** Whether the reject comes first is decided in the part that first mentions the order. */
  lemma {:induction false} KillFirstConcat(a: seq<Item>, b: seq<Item>, id: string)
    ensures KillFirst(a + b, id) <==> if Mentions(a, id) then KillFirst(a, id) else KillFirst(b, id)
    decreases |a|
  {
    if a == [] {
      assert a + b == b;
    } else {
      assert (a + b)[1..] == a[1..] + b;
      KillFirstConcat(a[1..], b, id);
      if a[0] != Kill(id) && a[0] != Keep(id) {
        assert Mentions(a, id) <==> Mentions(a[1..], id);
      }
    }
  }

  /** Leaving out an item about another order changes nothing. */
  lemma KillFirstWithout(a: seq<Item>, h: Item, b: seq<Item>, id: string)
    requires h.id != id
    ensures KillFirst(a + ([h] + b), id) <==> KillFirst(a + b, id)
  {
    KillFirstConcat(a, [h] + b, id);
    KillFirstConcat(a, b, id);
    assert ([h] + b)[1..] == b;
  }

  lemma KillFirstAppended(items: seq<Item>, h: Item, id: string)
    ensures KillFirst(items + [h], id) <==> if Mentions(items, id) then KillFirst(items, id) else h == Kill(id)
  {
    KillFirstConcat(items, [h], id);
    assert [h][1..] == [];
  }
}
