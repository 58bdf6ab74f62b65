/** From the sink to the order books: what a market's book holds, in every interleaving of the ingest threads. */
module MarketBooks {
  import opened MarketTypes
  import opened PipelineMachine
  import PipelineProofs
  import opened PipelineOrder
  import opened ShardConsumer
  import BookModel
  import BookProperties

  /** The parser files an event under the market it was routed by. */
  ghost predicate Faithful(parse: Parser) {
    forall event :: parse(event).Some? ==> parse(event).value.market == event.market
  }

  /** The events a shard has popped, and so consumed, in order. */
  function PoppedEvents(s: State, k: nat): (events: seq<RoutedEvent>)
    requires k < |s.shards|
    ensures |events| == |s.shards[k].popped|
  {
    seq(|s.shards[k].popped|, i requires 0 <= i < |s.shards[k].popped| => s.shards[k].popped[i].item)
  }

  /** A shard's books, as its consumer leaves them. */
  function BooksAt(parse: Parser, handler: Option<Handler>, s: State, k: nat): BookModel.Store
    requires k < |s.shards|
  {
    ConsumedAll(parse, handler, map[], NO_TALLY, PoppedEvents(s, k)).0
  }

  /** `events` are the parses of the messages at `positions`, all of them of one market. */
  ghost predicate Traces(c: Config, log: seq<string>, parse: Parser, market: string,
                         positions: seq<nat>, events: seq<BookModel.Event>) {
    && |positions| == |events| && StrictlyIncreasing(positions)
    && forall i :: 0 <= i < |positions| ==> IsTrace(c, log, parse, market, positions[i], events[i])
  }

  predicate IsTrace(c: Config, log: seq<string>, parse: Parser, market: string, position: nat, event: BookModel.Event) {
    && position < |log| && c.Routed(log[position]).Some?
    && c.Routed(log[position]).value.market == market && parse(c.Routed(log[position]).value) == Some(event)
  }

  lemma {:induction false} OnlyMarketSnoc(es: seq<BookModel.Event>, e: BookModel.Event, market: string)
    ensures BookProperties.OnlyMarket(es + [e], market)
            == BookProperties.OnlyMarket(es, market)
               + if BookModel.Addressed(e) && e.market == market then [e] else []
    decreases |es|
  {
    if es == [] {
      assert es + [e] == [e] && [e][1..] == [];
    } else {
      assert (es + [e])[1..] == es[1..] + [e];
      OnlyMarketSnoc(es[1..], e, market);
    }
  }

  /** Each event stems from the message at the same place in a list of increasing positions. */
  ghost predicate Stems(c: Config, log: seq<string>, positions: seq<nat>, events: seq<RoutedEvent>) {
    && |positions| == |events| && StrictlyIncreasing(positions)
    && forall i :: 0 <= i < |events| ==> positions[i] < |log| && c.Routed(log[positions[i]]) == Some(events[i])
  }

  /** Among events that stem from increasing positions, those of one market do too. */
  lemma {:induction false} SelectMarket(c: Config, log: seq<string>, parse: Parser, market: string,
                                        positions: seq<nat>, events: seq<RoutedEvent>)
    returns (chosen: seq<nat>, own: seq<BookModel.Event>)
    requires Faithful(parse) && Stems(c, log, positions, events)
    ensures own == BookProperties.OnlyMarket(ParsedOf(parse, events), market)
    ensures Traces(c, log, parse, market, chosen, own) && forall i :: 0 <= i < |chosen| ==> chosen[i] in positions
    decreases |events|
  {
    if events == [] {
      chosen, own := [], [];
    } else {
      var n := |events| - 1;
      var p, event := positions[n], events[n];
      assert Stems(c, log, positions[..n], events[..n]);
      chosen, own := SelectMarket(c, log, parse, market, positions[..n], events[..n]);
      if parse(event).Some? {
        var e := parse(event).value;
        OnlyMarketSnoc(ParsedOf(parse, events[..n]), e, market);
        if BookModel.Addressed(e) && e.market == market {
          ExtendTrace(c, log, parse, market, positions, n, chosen, own, e);
          chosen, own := chosen + [p], own + [e];
        }
      }
    }
  }

  lemma ExtendTrace(c: Config, log: seq<string>, parse: Parser, market: string, positions: seq<nat>, n: nat,
                    chosen: seq<nat>, own: seq<BookModel.Event>, e: BookModel.Event)
    requires n < |positions| && StrictlyIncreasing(positions) && Traces(c, log, parse, market, chosen, own)
    requires forall i :: 0 <= i < |chosen| ==> chosen[i] in positions[..n]
    requires IsTrace(c, log, parse, market, positions[n], e)
    ensures Traces(c, log, parse, market, chosen + [positions[n]], own + [e])
  {
    forall i | 0 <= i < |chosen| ensures chosen[i] < positions[n] {
      assert chosen[i] in positions[..n];
    }
  }

  lemma ShardStems(c: Config, s: State, k: nat, positions: seq<nat>)
    requires k < |s.shards| && PoppedInOrder(c, s, k, positions)
    ensures Stems(c, s.log, positions, PoppedEvents(s, k))
  {
  }

  /** A market's book at a shard is the run of that market's own events among those popped. */
  lemma BookAtShard(c: Config, s: State, k: nat, parse: Parser, handler: Option<Handler>, market: string,
                    positions: seq<nat>)
    returns (chosen: seq<nat>, own: seq<BookModel.Event>)
    requires Faithful(parse) && k < |s.shards| && PoppedInOrder(c, s, k, positions)
    ensures Traces(c, s.log, parse, market, chosen, own) && forall i :: 0 <= i < |chosen| ==> chosen[i] in positions
    ensures BookModel.BookOf(BooksAt(parse, handler, s, k), market) == BookModel.Run(BookModel.FRESH, own)
  {
    var events := PoppedEvents(s, k);
    ShardStems(c, s, k, positions);
    chosen, own := SelectMarket(c, s.log, parse, market, positions, events);
    BooksFollowTheQueue(parse, handler, map[], events);
    BookProperties.MarketsAreIsolated(map[], ParsedOf(parse, events), market);
  }

  /**
   In every interleaving, whatever each shard has consumed so far: a market's book at its own shard is a fresh book fed
   the parses of an in-order subsequence of the messages offered for that market, and at every other shard it is fresh.
   */
  lemma MarketBookFollowsItsMessages(c: Config, actions: seq<Action>, parse: Parser, handler: Option<Handler>,
                                     market: string, k: nat)
    returns (positions: seq<nat>, events: seq<BookModel.Event>)
    requires Faithful(parse) && k < Max(1, c.requestedShards)
    ensures PipelineProofs.Sound(c, Initial(c))
    ensures var s := PipelineProofs.Run(c, Initial(c), actions);
            && k < |s.shards| && Traces(c, s.log, parse, market, positions, events)
            && BookModel.BookOf(BooksAt(parse, handler, s, k), market) == BookModel.Run(BookModel.FRESH, events)
            && (k != ShardFor(c, market) ==> BookModel.BookOf(BooksAt(parse, handler, s, k), market) == BookModel.FRESH)
  {
    ShardForIsShardOf(c, market);
    var all := EndToEndOrder(c, actions, k);
    var s := PipelineProofs.Run(c, Initial(c), actions);
    positions, events := BookAtShard(c, s, k, parse, handler, market, all);
    if k != ShardFor(c, market) && positions != [] {
      assert IsTrace(c, s.log, parse, market, positions[0], events[0]);
      var i :| 0 <= i < |all| && all[i] == positions[0];
      assert false;
    }
  }
}
