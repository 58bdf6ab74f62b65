/** A shard's consumer: pops routed events, parses them, and applies them to its own order books. */
module ShardConsumer {
  import opened MarketTypes
  import opened PipelineMachine
  import opened IngestPipeline
  import BookModel
  import BookStore

  /** `parse` is the exchange parser, a pure function of the routed event. */
  type Parser = RoutedEvent -> Option<BookModel.Event>

  /** What a shard's event handler answers to an applied event. */
  type Handler = BookModel.Event -> bool

  datatype Tally = Tally(consumed: nat, parsed: nat, parseErrors: nat, applied: nat, handled: nat, handlerErrors: nat)

  const NO_TALLY := Tally(0, 0, 0, 0, 0, 0)

  /** The counters after an event that was parsed, or not, and applied, or not, and answered by the handler, if any. */
  function Counted(t: Tally, parsed: bool, applied: bool, answer: Option<bool>): Tally {
    Tally(t.consumed + 1,
          if parsed then t.parsed + 1 else t.parsed,
          if applied then t.parseErrors else t.parseErrors + 1,
          if applied then t.applied + 1 else t.applied,
          if applied && answer.Some? then t.handled + 1 else t.handled,
          if applied && answer == Some(false) then t.handlerErrors + 1 else t.handlerErrors)
  }

  function Answer(handler: Option<Handler>, e: BookModel.Event): Option<bool> {
    if handler.Some? then Some(handler.value(e)) else None
  }

  /** What one popped event does to the books and the counters; a refused event counts as a parse error as well. */
  function Consumed(parse: Parser, handler: Option<Handler>, books: BookModel.Store, t: Tally, event: RoutedEvent)
    : (BookModel.Store, Tally)
  {
    match parse(event)
    case None => (books, Counted(t, false, false, None))
    case Some(e) =>
      var (books', ok) := BookModel.StoreStep(books, e);
      (books', Counted(t, true, ok, Answer(handler, e)))
  }

  class Shard {
    const shardId: nat
    const dispatch: ShardedEventDispatch
    const books: BookStore.BookStore
    const parse: Parser
    const handler: Option<Handler>
    var tally: Tally

    constructor (shardId: nat, dispatch: ShardedEventDispatch, books: BookStore.BookStore, parse: Parser,
                 handler: Option<Handler>)
      ensures this.shardId == shardId && this.dispatch == dispatch && this.books == books && this.parse == parse
      ensures this.handler == handler && tally == NO_TALLY
    {
      this.shardId, this.dispatch, this.books, this.parse, this.handler := shardId, dispatch, books, parse, handler;
      tally := NO_TALLY;
    }

    /** One turn of the worker loop. */
    method ConsumeOne() returns (got: bool)
      requires dispatch.Valid() && books.Valid()
      requires books !in dispatch.Footprint() && books.books.Values !! dispatch.Footprint()
      requires this !in dispatch.Footprint()
      modifies this, books, books.books.Values, dispatch.Footprint()
      ensures dispatch.Valid() && books.Valid()
      ensures got <==> shardId < |dispatch.queues| && old(dispatch.Shards())[shardId] != []
      ensures if got
              then && dispatch.Shards() == old(dispatch.Shards())[shardId := old(dispatch.Shards())[shardId][1..]]
                   && (books.View(), tally) ==
                      Consumed(parse, handler, old(books.View()), old(tally), old(dispatch.Shards())[shardId][0])
              else && dispatch.Shards() == old(dispatch.Shards())
                   && books.View() == old(books.View()) && tally == old(tally)
    {
      var event;
      got, event := PopEvent(dispatch.Shards(), books.View());
      if got {
        ApplyEvent(event);
      }
    }

    /** Popping leaves the books alone. */
    method PopEvent(ghost shards: seq<seq<RoutedEvent>>, ghost was: BookModel.Store)
      returns (got: bool, event: RoutedEvent)
      requires dispatch.Valid() && books.Valid() && shards == dispatch.Shards() && was == books.View()
      requires books !in dispatch.Footprint() && books.books.Values !! dispatch.Footprint()
      modifies dispatch.Footprint()
      ensures dispatch.Valid() && books.Valid() && books.View() == was
      ensures got <==> shardId < |dispatch.queues| && shards[shardId] != []
      ensures if got then event == shards[shardId][0] && dispatch.Shards() == shards[shardId := shards[shardId][1..]]
              else dispatch.Shards() == shards
    {
      got, event := dispatch.TryPop(shardId);
    }

    method ApplyEvent(event: RoutedEvent)
      requires dispatch.Valid() && books.Valid()
      requires books !in dispatch.Footprint() && books.books.Values !! dispatch.Footprint()
      requires this !in dispatch.Footprint()
      modifies this, books, books.books.Values
      ensures dispatch.Valid() && books.Valid() && dispatch.Shards() == old(dispatch.Shards())
      ensures (books.View(), tally) == Consumed(parse, handler, old(books.View()), old(tally), event)
    {
      var parsed := parse(event);
      var ok, answer := false, None;
      if parsed.Some? {
        ok := ApplyToBooks(parsed.value);
        if ok && handler.Some? {
          answer := Some(handler.value(parsed.value));
        }
      }
      Count(parsed.Some?, ok, answer);
    }

    method Count(parsed: bool, applied: bool, answer: Option<bool>)
      requires dispatch.Valid() && books.Valid() && this !in dispatch.Footprint()
      modifies this
      ensures dispatch.Valid() && books.Valid()
      ensures dispatch.Shards() == old(dispatch.Shards()) && books.View() == old(books.View())
      ensures tally == Counted(old(tally), parsed, applied, answer)
    {
      var t := tally.(consumed := tally.consumed + 1);
      if parsed {
        t := t.(parsed := t.parsed + 1);
      }
      if applied {
        t := t.(applied := t.applied + 1);
        if answer.Some? {
          t := t.(handled := t.handled + 1);
          if !answer.value {
            t := t.(handlerErrors := t.handlerErrors + 1);
          }
        }
      } else {
        t := t.(parseErrors := t.parseErrors + 1);
      }
      tally := t;
    }

    /** The books share nothing with the queues. */
    method ApplyToBooks(e: BookModel.Event) returns (ok: bool)
      requires dispatch.Valid() && books.Valid()
      requires books !in dispatch.Footprint() && books.books.Values !! dispatch.Footprint()
      modifies books, books.books.Values
      ensures dispatch.Valid() && books.Valid() && dispatch.Shards() == old(dispatch.Shards())
      ensures (books.View(), ok) == BookModel.StoreStep(old(books.View()), e)
    {
      ok := books.Apply(e);
    }
  }

  function ConsumedAll(parse: Parser, handler: Option<Handler>, books: BookModel.Store, t: Tally,
                       events: seq<RoutedEvent>)
    : (BookModel.Store, Tally)
  {
    if events == [] then (books, t)
    else
      var (b, t1) := ConsumedAll(parse, handler, books, t, events[..|events| - 1]);
      Consumed(parse, handler, b, t1, events[|events| - 1])
  }

  /** The events of a sequence that the parser understands. */
  function ParsedOf(parse: Parser, events: seq<RoutedEvent>): seq<BookModel.Event> {
    if events == [] then []
    else
      var front := ParsedOf(parse, events[..|events| - 1]);
      match parse(events[|events| - 1])
      case None => front
      case Some(e) => front + [e]
  }

  lemma {:induction false} StoreRunSnoc(st: BookModel.Store, es: seq<BookModel.Event>, e: BookModel.Event)
    ensures BookModel.StoreRun(st, es + [e]) == BookModel.StoreStep(BookModel.StoreRun(st, es), e).0
    decreases |es|
  {
    if es == [] {
      assert es + [e] == [e] && [e][1..] == [];
    } else {
      assert (es + [e])[1..] == es[1..] + [e];
      StoreRunSnoc(BookModel.StoreStep(st, es[0]).0, es[1..], e);
    }
  }

  /**
   A shard's books are exactly its parsed events applied in order; its counters split what it consumed, and a handler is
   called for exactly the applied events.
   */
  lemma {:induction false} BooksFollowTheQueue(parse: Parser, handler: Option<Handler>, books: BookModel.Store,
                                               events: seq<RoutedEvent>)
    ensures var (after, t) := ConsumedAll(parse, handler, books, NO_TALLY, events);
            && after == BookModel.StoreRun(books, ParsedOf(parse, events))
            && t.consumed == |events| == t.applied + t.parseErrors
            && t.parsed == |ParsedOf(parse, events)| && t.applied <= t.parsed
            && t.handled == (if handler.Some? then t.applied else 0) && t.handlerErrors <= t.handled
  {
    if events != [] {
      var front, last := events[..|events| - 1], events[|events| - 1];
      BooksFollowTheQueue(parse, handler, books, front);
      if parse(last).Some? {
        StoreRunSnoc(books, ParsedOf(parse, front), parse(last).value);
      }
    }
  }

  /** The parsed events that the books take, in order. */
  function TakenOf(parse: Parser, books: BookModel.Store, events: seq<RoutedEvent>): seq<BookModel.Event> {
    if events == [] then []
    else
      var front, last := events[..|events| - 1], parse(events[|events| - 1]);
      TakenOf(parse, books, front)
      + if last.Some? && BookModel.StoreStep(BookModel.StoreRun(books, ParsedOf(parse, front)), last.value).1
        then [last.value] else []
  }

  function AnsweredFalse(handler: Handler, es: seq<BookModel.Event>): nat {
    if es == [] then 0
    else AnsweredFalse(handler, es[..|es| - 1]) + if handler(es[|es| - 1]) then 0 else 1
  }

  /** Applied are the events the books took, the rest are errors; the handler errors are those it answered with no. */
  lemma {:induction false} TallyIsExact(parse: Parser, handler: Option<Handler>, books: BookModel.Store,
                                        events: seq<RoutedEvent>)
    ensures var t := ConsumedAll(parse, handler, books, NO_TALLY, events).1;
            var taken := TakenOf(parse, books, events);
            && t.applied == |taken| && t.parseErrors == |events| - |taken|
            && t.handlerErrors == if handler.Some? then AnsweredFalse(handler.value, taken) else 0
  {
    if events != [] {
      var front := events[..|events| - 1];
      TallyIsExact(parse, handler, books, front);
      BooksFollowTheQueue(parse, handler, books, front);
      var before, taken := TakenOf(parse, books, front), TakenOf(parse, books, events);
      if taken != before {
        assert taken[..|taken| - 1] == before;
      }
    }
  }
}
