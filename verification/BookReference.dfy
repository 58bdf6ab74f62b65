/**
 A second, independent account of one order book: which events count, told with the numbers, sides and sequence ids of
 the events themselves. Every run of the book follows it, event by event. It keeps lists instead of levels and sequence
 ids instead of the last one, so what the book filters by a single number is here a statement about all ids heard.
 */
module BookReference {
  import opened MarketTypes
  import opened BookModel
  import opened BookProperties

  /** Waiting for a snapshot, following the market, or having lost track of it. */
  datatype Mode = Waiting | Live | Lost

  /**
   Sequence ids since the last accepted snapshot: that snapshot's and those of the deltas and trades accepted since, and
   those of malformed deltas, which are refused but heard.
   */
  datatype Heard = Heard(accepted: seq<nat>, wasted: seq<nat>)

  const SILENCE := Heard([], [])

  datatype Reference = Reference(
    mode: Mode,
    buffered: seq<Pending>,
    heard: Heard,
    bids: seq<Level>,
    asks: seq<Level>,
    trail: seq<DeltaData>,
    trade: Option<TradeData>,
    counts: Counts)

  const NOTHING := Reference(Waiting, [], SILENCE, [], [], [], None, Counts(0, 0, 0, 0, 0, 0, 0, 0, 0))

  /** An event's sequence id: the exchange's own if there is one, else the connection's unless that is 0. */
  function IdOf(e: Event): Option<nat> {
    match e.rawSeq
    case Some(n) => Some(n)
    case None => if e.metaSeq == 0 then None else Some(e.metaSeq)
  }

  predicate Above(ids: seq<nat>, n: nat) {
    forall i :: 0 <= i < |ids| ==> ids[i] < n
  }

  /** Without an id, or with one above every id heard. */
  predicate Passes(h: Heard, id: Option<nat>) {
    id.Some? ==> Above(h.accepted, id.value) && Above(h.wasted, id.value)
  }

  function Accept(h: Heard, id: Option<nat>): Heard {
    if id.None? then h else h.(accepted := h.accepted + [id.value])
  }

  function Waste(h: Heard, id: Option<nat>): Heard {
    if id.None? then h else h.(wasted := h.wasted + [id.value])
  }

  predicate GoodDelta(d: DeltaData) {
    0 <= d.price && (d.side == Bid || d.side == Ask || d.side == Buy || d.side == Sell)
  }

  predicate GoodLevel(l: Level) {
    l.price >= 0 && l.qty >= 1
  }

  /** The levels before the first one that is not good. */
  function GoodPrefix(ls: seq<Level>): seq<Level> {
    if ls != [] && GoodLevel(ls[0]) then [ls[0]] + GoodPrefix(ls[1..]) else []
  }

  /** What replaying buffered deltas keeps: those that pass, up to the first of them that is not good. */
  datatype Sifted = Sifted(clean: bool, heard: Heard, kept: seq<DeltaData>, stale: nat)

  function Sift(h: Heard, ps: seq<Pending>, kept: seq<DeltaData>, stale: nat): (s: Sifted)
    ensures |s.kept| <= |kept| + |ps|
    decreases |ps|
  {
    if ps == [] then Sifted(true, h, kept, stale)
    else if !Passes(h, ps[0].seqId) then Sift(h, ps[1..], kept, stale + 1)
    else if !GoodDelta(ps[0].delta) then Sifted(false, h, kept, stale)
    else Sift(Accept(h, ps[0].seqId), ps[1..], kept + [ps[0].delta], stale)
  }

  function Refused(r: Reference): (Reference, bool) {
    (r.(counts := r.counts.(rejects := r.counts.rejects + 1)), false)
  }

  function Stale(r: Reference): (Reference, bool) {
    Refused(r.(counts := r.counts.(stale := r.counts.stale + 1)))
  }

  /** Track is lost: nothing is kept but the last trade. */
  function Lose(r: Reference, dropped: nat): Reference {
    NOTHING.(mode := Lost, trade := r.trade,
             counts := r.counts.(desyncs := r.counts.desyncs + 1, droppedPending := r.counts.droppedPending + dropped))
  }

  /** All levels of the snapshot are good: the buffered deltas are sifted on top of it. */
  function Resume(r: Reference, id: Option<nat>, s: SnapshotData): (Reference, bool) {
    var sifted := Sift(Accept(SILENCE, id), r.buffered, [], 0);
    var counts := r.counts.(snapshots := r.counts.snapshots + 1,
                            deltas := r.counts.deltas + |sifted.kept|,
                            replayed := r.counts.replayed + |sifted.kept|,
                            stale := r.counts.stale + sifted.stale);
    var dropped := |r.buffered| - |sifted.kept|;
    if !sifted.clean then Refused(Lose(r.(counts := counts), dropped))
    else
      (Reference(Live, [], sifted.heard, s.bids, s.asks, sifted.kept, r.trade,
                 counts.(droppedPending := counts.droppedPending + dropped)), true)
  }

  function OnSnapshot(r: Reference, id: Option<nat>, s: SnapshotData): (Reference, bool) {
    if GoodPrefix(s.bids) != s.bids then Refused(r.(bids := GoodPrefix(s.bids), asks := [], trail := []))
    else if GoodPrefix(s.asks) != s.asks then Refused(r.(bids := s.bids, asks := GoodPrefix(s.asks), trail := []))
    else Resume(r, id, s)
  }

  function OnDelta(r: Reference, id: Option<nat>, d: DeltaData): (Reference, bool) {
    match r.mode
    case Lost => Refused(r)
    case Waiting =>
      if |r.buffered| >= 512 then Refused(Lose(r, |r.buffered| + 1))
      else (r.(buffered := r.buffered + [Pending(id, d)], counts := r.counts.(buffered := r.counts.buffered + 1)), true)
    case Live =>
      if !Passes(r.heard, id) then Stale(r)
      else if !GoodDelta(d) then Refused(r.(heard := Waste(r.heard, id)))
      else (r.(heard := Accept(r.heard, id), trail := r.trail + [d],
               counts := r.counts.(deltas := r.counts.deltas + 1)), true)
  }

  function OnTrade(r: Reference, id: Option<nat>, t: TradeData): (Reference, bool) {
    if r.mode == Lost then Refused(r)
    else if !Passes(r.heard, id) then Stale(r)
    else (r.(heard := Accept(r.heard, id), trade := Some(t), counts := r.counts.(trades := r.counts.trades + 1)), true)
  }

  /** Snapshots, deltas and trades with a payload of their kind; everything else is refused. */
  function After(r: Reference, e: Event): (Reference, bool) {
    if e.eventType == SnapshotType && e.data.SnapshotPayload? then OnSnapshot(r, IdOf(e), e.data.snapshot)
    else if e.eventType == DeltaType && e.data.DeltaPayload? then OnDelta(r, IdOf(e), e.data.delta)
    else if e.eventType == TradeType && e.data.TradePayload? then OnTrade(r, IdOf(e), e.data.trade)
    else Refused(r)
  }

  function AfterAll(r: Reference, es: seq<Event>): Reference
    decreases |es|
  {
    if es == [] then r else AfterAll(After(r, es[0]).0, es[1..])
  }

  // ---------------------------------------------------------------- what the ids keep

  predicate Increasing(ids: seq<nat>) {
    forall i, j :: 0 <= i < j < |ids| ==> ids[i] < ids[j]
  }

  predicate Apart(xs: seq<nat>, ys: seq<nat>) {
    forall i, j :: 0 <= i < |xs| && 0 <= j < |ys| ==> xs[i] != ys[j]
  }

  predicate Ordered(h: Heard) {
    Increasing(h.accepted) && Apart(h.accepted, h.wasted)
  }

  predicate NoneAbove(ids: seq<nat>, n: nat) {
    forall i :: 0 <= i < |ids| ==> ids[i] <= n
  }

  /** The book's last sequence id is the highest one heard. */
  predicate Highest(last: Option<nat>, h: Heard) {
    if last.None? then h == SILENCE
    else
      && (last.value in h.accepted || last.value in h.wasted)
      && NoneAbove(h.accepted, last.value) && NoneAbove(h.wasted, last.value)
  }

  lemma PassesIsNewer(last: Option<nat>, h: Heard, id: Option<nat>)
    requires Highest(last, h)
    ensures Newer(last, id) <==> Passes(h, id)
  {
  }

  lemma PassedIsHighest(last: Option<nat>, h: Heard, id: Option<nat>)
    requires Highest(last, h) && Ordered(h) && Passes(h, id)
    ensures Highest(Advanced(last, id), Accept(h, id)) && Ordered(Accept(h, id))
    ensures Highest(Advanced(last, id), Waste(h, id)) && Ordered(Waste(h, id))
  {
    if id.Some? {
      var n := id.value;
      assert (h.accepted + [n])[|h.accepted|] == n && (h.wasted + [n])[|h.wasted|] == n;
    }
  }

  lemma IdIsSeq(e: Event)
    ensures e.Seq() == IdOf(e)
  {
  }

  // ---------------------------------------------------------------- the book follows the reference

  predicate Follows(b: Book, r: Reference) {
    && b.hasSnapshot == (r.mode == Live) && b.desynced == (r.mode == Lost)
    && b.pending == r.buffered && (r.mode != Waiting ==> r.buffered == [])
    && Ordered(r.heard) && Highest(b.lastSeq, r.heard)
    && b.lastTrade == r.trade && b.counts == r.counts
  }

  lemma {:induction false} PrefixesAgree(ls: seq<Level>)
    ensures ValidPrefix(ls) == GoodPrefix(ls)
  {
    if ls != [] && ValidLevel(ls[0]) {
      PrefixesAgree(ls[1..]);
    }
  }

  /** A book that replays: live, with deltas still in the buffer. */
  predicate Replaying(b: Book, h: Heard) {
    b.hasSnapshot && !b.desynced && Ordered(h) && Highest(b.lastSeq, h)
  }

  /** What replay does to the parts of a book other than its levels. */
  predicate Replayed(b: Book, b': Book, ok: bool, s: Sifted, kept: nat, stale: nat) {
    && s.clean == ok && b'.pending == [] && b'.lastTrade == b.lastTrade
    && b'.hasSnapshot == ok && b'.desynced == !ok && kept <= |s.kept| && stale <= s.stale
    && (if ok then Ordered(s.heard) && Highest(b'.lastSeq, s.heard) else b'.lastSeq == None)
    && |s.kept| - kept <= |b.pending|
    && b'.counts == b.counts.(deltas := b.counts.deltas + (|s.kept| - kept),
                              replayed := b.counts.replayed + (|s.kept| - kept),
                              stale := b.counts.stale + (s.stale - stale),
                              droppedPending := b.counts.droppedPending + (|b.pending| - (|s.kept| - kept)),
                              desyncs := b.counts.desyncs + if ok then 0 else 1)
  }

  /** One turn of the replay loop, in the three cases of the sift. */
  lemma HeadIsSifted(b: Book, h: Heard)
    requires b.pending != [] && Replaying(b, h)
    ensures var (b1, ok) := ReplayHead(b);
            var p := b.pending[0];
            && b1.lastTrade == b.lastTrade && ok == (Passes(h, p.seqId) ==> GoodDelta(p.delta))
            && b1.pending == (if ok then b.pending[1..] else [])
            && b1.hasSnapshot == ok && b1.desynced == !ok
            && b1.lastSeq == (if !ok then None
                              else if Passes(h, p.seqId) then Advanced(b.lastSeq, p.seqId) else b.lastSeq)
            && b1.counts == (if !ok then b.counts.(desyncs := b.counts.desyncs + 1,
                                                   droppedPending := b.counts.droppedPending + |b.pending|)
                             else if Passes(h, p.seqId) then b.counts.(deltas := b.counts.deltas + 1,
                                                                       replayed := b.counts.replayed + 1)
                             else b.counts.(stale := b.counts.stale + 1,
                                            droppedPending := b.counts.droppedPending + 1))
  {
    PassesIsNewer(b.lastSeq, h, b.pending[0].seqId);
  }

  lemma {:induction false} ReplayIsSifted(b: Book, h: Heard, kept: seq<DeltaData>, stale: nat)
    requires Replaying(b, h)
    ensures var (b', ok) := Replay(b);
            Replayed(b, b', ok, Sift(h, b.pending, kept, stale), |kept|, stale)
    decreases |b.pending|
  {
    if b.pending != [] {
      var p := b.pending[0];
      HeadIsSifted(b, h);
      var (b1, ok) := ReplayHead(b);
      if ok && Passes(h, p.seqId) {
        PassedIsHighest(b.lastSeq, h, p.seqId);
        ReplayIsSifted(b1, Accept(h, p.seqId), kept + [p.delta], stale);
      } else if ok {
        ReplayIsSifted(b1, h, kept, stale + 1);
      }
    }
  }

  /** The deltas replay keeps are those the sift keeps. */
  lemma {:induction false} TrailIsSifted(last: Option<nat>, h: Heard, ps: seq<Pending>, kept: seq<DeltaData>,
                                         stale: nat)
    requires Ordered(h) && Highest(last, h) && Sift(h, ps, kept, stale).clean
    ensures ReplayTrail(last, ps, kept) == Sift(h, ps, kept, stale).kept
    decreases |ps|
  {
    if ps != [] {
      PassesIsNewer(last, h, ps[0].seqId);
      if Passes(h, ps[0].seqId) {
        PassedIsHighest(last, h, ps[0].seqId);
        TrailIsSifted(Advanced(last, ps[0].seqId), Accept(h, ps[0].seqId), ps[1..], kept + [ps[0].delta], stale);
      } else {
        TrailIsSifted(last, h, ps[1..], kept, stale + 1);
      }
    }
  }

  function HistoryOf(r: Reference): History {
    History(r.bids, r.asks, r.trail)
  }

  predicate StepsAgree(b: Book, r: Reference, e: Event) {
    && Follows(Step(b, e).0, After(r, e).0) && Step(b, e).1 == After(r, e).1
    && HistoryStep(b, HistoryOf(r), e) == HistoryOf(After(r, e).0)
  }

  lemma ResumeAgrees(b: Book, r: Reference, e: Event)
    requires Follows(b, r) && e.eventType == SnapshotType && e.data.SnapshotPayload? && IsValidSnapshot(e)
    requires After(r, e) == Resume(r, IdOf(e), e.data.snapshot)
    ensures Follows(Step(b, e).0, After(r, e).0) && Step(b, e).1 == After(r, e).1
    ensures Step(b, e).1 ==> ReplayTrail(e.Seq(), b.pending, []) == After(r, e).0.trail
  {
    SnapshotStarts(b, e);
    var h := Accept(SILENCE, IdOf(e));
    SnapshotIsHeard(e, h);
    var start := SnapshotStart(b, e);
    ReplayIsSifted(start, h, [], 0);
    ReplayedFollows(b, r, e, start, Replay(start).0, Replay(start).1, Sift(h, r.buffered, [], 0));
    if Step(b, e).1 {
      TrailIsSifted(e.Seq(), h, b.pending, [], 0);
    }
  }

  lemma SnapshotIsHeard(e: Event, h: Heard)
    requires h == Accept(SILENCE, IdOf(e))
    ensures Ordered(h) && Highest(e.Seq(), h)
  {
    IdIsSeq(e);
    PassedIsHighest(None, SILENCE, IdOf(e));
  }

  lemma ReplayedFollows(b: Book, r: Reference, e: Event, start: Book, b': Book, ok: bool, s: Sifted)
    requires Follows(b, r) && e.data.SnapshotPayload? && start == SnapshotStart(b, e)
    requires Replayed(start, b', ok, s, 0, 0) && s == Sift(Accept(SILENCE, IdOf(e)), r.buffered, [], 0)
    ensures var (r', taken) := Resume(r, IdOf(e), e.data.snapshot);
            taken == ok && Follows(if ok then b' else Rejected(b'), r') && (ok ==> r'.trail == s.kept)
  {
  }

  lemma SnapshotAgrees(b: Book, r: Reference, e: Event)
    requires Follows(b, r) && e.eventType == SnapshotType && e.data.SnapshotPayload?
    ensures StepsAgree(b, r, e)
  {
    var s := e.data.snapshot;
    PrefixesAgree(s.bids);
    PrefixesAgree(s.asks);
    LoadedIsPrefix(map[], s.bids);
    LoadedIsPrefix(map[], s.asks);
    if GoodPrefix(s.bids) == s.bids && GoodPrefix(s.asks) == s.asks {
      ValidPrefixValid(s.bids);
      ValidPrefixValid(s.asks);
      ResumeAgrees(b, r, e);
    }
  }

  lemma BufferedDeltaAgrees(b: Book, r: Reference, e: Event)
    requires Follows(b, r) && e.eventType == DeltaType && e.data.DeltaPayload? && r.mode != Live
    ensures StepsAgree(b, r, e)
  {
    IdIsSeq(e);
  }

  /** A live delta, in the three cases: stale, malformed, taken. */
  lemma LiveDeltaCases(b: Book, h: Heard, e: Event)
    requires e.eventType == DeltaType && e.data.DeltaPayload? && b.hasSnapshot && !b.desynced
    requires Ordered(h) && Highest(b.lastSeq, h)
    ensures var (b', ok) := Step(b, e);
            && ok == (Passes(h, IdOf(e)) && GoodDelta(e.data.delta)) && b'.hasSnapshot && !b'.desynced
            && b'.pending == b.pending && b'.lastTrade == b.lastTrade
            && b'.lastSeq == (if Passes(h, IdOf(e)) then Advanced(b.lastSeq, IdOf(e)) else b.lastSeq)
            && b'.counts == (if ok then b.counts.(deltas := b.counts.deltas + 1)
                             else if Passes(h, IdOf(e)) then b.counts.(rejects := b.counts.rejects + 1)
                             else b.counts.(stale := b.counts.stale + 1, rejects := b.counts.rejects + 1))
  {
    IdIsSeq(e);
    PassesIsNewer(b.lastSeq, h, IdOf(e));
  }

  lemma LiveDeltaHeard(b: Book, r: Reference, e: Event)
    requires Follows(b, r) && e.eventType == DeltaType && e.data.DeltaPayload? && r.mode == Live
    ensures var r' := After(r, e).0;
            && Ordered(r'.heard)
            && Highest(if Passes(r.heard, IdOf(e)) then Advanced(b.lastSeq, IdOf(e)) else b.lastSeq, r'.heard)
  {
    if Passes(r.heard, IdOf(e)) {
      PassedIsHighest(b.lastSeq, r.heard, IdOf(e));
    }
  }

  lemma LiveDeltaFollows(b: Book, r: Reference, e: Event)
    requires Follows(b, r) && e.eventType == DeltaType && e.data.DeltaPayload? && r.mode == Live
    ensures Follows(Step(b, e).0, After(r, e).0) && Step(b, e).1 == After(r, e).1
  {
    LiveDeltaHeard(b, r, e);
    var b' := Step(b, e).0;
    LiveDeltaCases(b, r.heard, e);
    assert Highest(b'.lastSeq, After(r, e).0.heard);
  }

  lemma LiveDeltaAgrees(b: Book, r: Reference, e: Event)
    requires Follows(b, r) && e.eventType == DeltaType && e.data.DeltaPayload? && r.mode == Live
    ensures StepsAgree(b, r, e)
  {
    LiveDeltaFollows(b, r, e);
  }

  lemma DeltaAgrees(b: Book, r: Reference, e: Event)
    requires Follows(b, r) && e.eventType == DeltaType && e.data.DeltaPayload?
    ensures StepsAgree(b, r, e)
  {
    if r.mode == Live {
      LiveDeltaAgrees(b, r, e);
    } else {
      BufferedDeltaAgrees(b, r, e);
    }
  }

  lemma TradeCases(b: Book, r: Reference, e: Event)
    requires Follows(b, r) && e.eventType == TradeType && e.data.TradePayload? && r.mode != Lost
    ensures Step(b, e) == if Passes(r.heard, IdOf(e)) then
              (b.(lastSeq := Advanced(b.lastSeq, IdOf(e)), lastTrade := Some(e.data.trade),
                  counts := b.counts.(trades := b.counts.trades + 1)), true)
            else (b.(counts := b.counts.(stale := b.counts.stale + 1, rejects := b.counts.rejects + 1)), false)
  {
    IdIsSeq(e);
    PassesIsNewer(b.lastSeq, r.heard, IdOf(e));
  }

  lemma TradeAgrees(b: Book, r: Reference, e: Event)
    requires Follows(b, r) && e.eventType == TradeType && e.data.TradePayload?
    ensures StepsAgree(b, r, e)
  {
    if r.mode != Lost {
      TradeCases(b, r, e);
      if Passes(r.heard, IdOf(e)) {
        PassedIsHighest(b.lastSeq, r.heard, IdOf(e));
      }
    }
  }

  lemma StepFollowsReference(b: Book, r: Reference, e: Event)
    requires Follows(b, r)
    ensures StepsAgree(b, r, e)
  {
    if e.eventType == SnapshotType && e.data.SnapshotPayload? {
      SnapshotAgrees(b, r, e);
    } else if e.eventType == DeltaType && e.data.DeltaPayload? {
      DeltaAgrees(b, r, e);
    } else if e.eventType == TradeType && e.data.TradePayload? {
      TradeAgrees(b, r, e);
    }
  }

  lemma {:induction false} RunFollowsReference(b: Book, r: Reference, es: seq<Event>)
    requires Follows(b, r)
    ensures Follows(Run(b, es), AfterAll(r, es)) && HistoryRun(b, HistoryOf(r), es) == HistoryOf(AfterAll(r, es))
    decreases |es|
  {
    if es != [] {
      StepFollowsReference(b, r, es[0]);
      RunFollowsReference(Step(b, es[0]).0, After(r, es[0]).0, es[1..]);
    }
  }

  // ---------------------------------------------------------------- every run

  /** The changes at one price on the given sides, in order. */
  function ChangesOn(trail: seq<DeltaData>, sides: set<Side>, price: int): seq<int> {
    if trail == [] then []
    else
      var d := trail[|trail| - 1];
      ChangesOn(trail[..|trail| - 1], sides, price) + if d.side in sides && d.price == price then [d.qty] else []
  }

  predicate AllGood(trail: seq<DeltaData>) {
    forall i :: 0 <= i < |trail| ==> GoodDelta(trail[i])
  }

  lemma {:induction false} ChangesBySide(trail: seq<DeltaData>, price: int)
    requires AllGood(trail)
    ensures ChangesAt(trail, true, price) == ChangesOn(trail, {Bid, Buy}, price)
    ensures ChangesAt(trail, false, price) == ChangesOn(trail, {Ask, Sell}, price)
  {
    if trail != [] {
      var d := trail[|trail| - 1];
      ChangesBySide(trail[..|trail| - 1], price);
    }
  }

  lemma {:induction false} SiftKeepsGood(h: Heard, ps: seq<Pending>, kept: seq<DeltaData>, stale: nat)
    requires AllGood(kept)
    ensures AllGood(Sift(h, ps, kept, stale).kept)
    decreases |ps|
  {
    if ps != [] {
      if !Passes(h, ps[0].seqId) {
        SiftKeepsGood(h, ps[1..], kept, stale + 1);
      } else if GoodDelta(ps[0].delta) {
        SiftKeepsGood(Accept(h, ps[0].seqId), ps[1..], kept + [ps[0].delta], stale);
      }
    }
  }

  lemma AfterKeepsGood(r: Reference, e: Event)
    requires AllGood(r.trail)
    ensures AllGood(After(r, e).0.trail)
  {
    SiftKeepsGood(Accept(SILENCE, IdOf(e)), r.buffered, [], 0);
  }

  lemma {:induction false} TrailsAreGood(r: Reference, es: seq<Event>)
    requires AllGood(r.trail)
    ensures AllGood(AfterAll(r, es).trail)
    decreases |es|
  {
    if es != [] {
      AfterKeepsGood(r, es[0]);
      TrailsAreGood(After(r, es[0]).0, es[1..]);
    }
  }

  /**
   After any events, the book is what the reference says: its mode, its buffer, its last trade, all its counters, and
   at every price the closed form over the deltas the reference kept, bids and buys on one side, asks and sells on the
   other. And it takes the next event exactly if the reference does.
   */
  lemma BookIsItsReference(es: seq<Event>, next: Event, price: int)
    ensures var b, r := Run(FRESH, es), AfterAll(NOTHING, es);
            && b.hasSnapshot == (r.mode == Live) && b.desynced == (r.mode == Lost) && b.pending == r.buffered
            && b.lastTrade == r.trade && b.counts == r.counts
            && QtyAt(b.bids, price) == ClosedForm(ListedQty(r.bids, price), ChangesOn(r.trail, {Bid, Buy}, price))
            && QtyAt(b.asks, price) == ClosedForm(ListedQty(r.asks, price), ChangesOn(r.trail, {Ask, Sell}, price))
            && Step(b, next).1 == After(r, next).1
  {
    var b, r := Run(FRESH, es), AfterAll(NOTHING, es);
    RunFollowsReference(FRESH, NOTHING, es);
    StepFollowsReference(b, r, next);
    LevelsInClosedForm(es);
    TrailsAreGood(NOTHING, es);
    ChangesBySide(r.trail, price);
  }

  /** The events of one market: those of a known type that name it. */
  function OwnEvents(es: seq<Event>, market: string): seq<Event> {
    if es == [] then []
    else if es[0].market == market && market != "" && es[0].eventType != UnknownType then
      [es[0]] + OwnEvents(es[1..], market)
    else OwnEvents(es[1..], market)
  }

  lemma {:induction false} OwnEventsAgree(es: seq<Event>, market: string)
    ensures OnlyMarket(es, market) == OwnEvents(es, market)
  {
    if es != [] {
      OwnEventsAgree(es[1..], market);
    }
  }

  /**
   In the store each market's book follows the reference of its own events. The store takes an event exactly if it names
   a market and a type and that market's reference takes it. Other markets' books stay as they are, and without a market
   or a type so does the whole store.
   */
  lemma StoreIsItsReferences(es: seq<Event>, next: Event, market: string)
    ensures var st := StoreRun(map[], es);
            var r := AfterAll(NOTHING, OwnEvents(es, next.market));
            var (st', ok) := StoreStep(st, next);
            && Follows(BookOf(st, market), AfterAll(NOTHING, OwnEvents(es, market)))
            && (ok <==> next.market != "" && next.eventType != UnknownType && After(r, next).1)
            && (next.market == "" || next.eventType == UnknownType ==> st' == st)
            && (market != next.market ==> BookOf(st', market) == BookOf(st, market))
  {
    var st := StoreRun(map[], es);
    MarketsAreIsolated(map[], es, market);
    OwnEventsAgree(es, market);
    RunFollowsReference(FRESH, NOTHING, OwnEvents(es, market));
    MarketsAreIsolated(map[], es, next.market);
    OwnEventsAgree(es, next.market);
    RunFollowsReference(FRESH, NOTHING, OwnEvents(es, next.market));
    StepFollowsReference(BookOf(st, next.market), AfterAll(NOTHING, OwnEvents(es, next.market)), next);
  }

  /**
   In every run: since the last accepted snapshot the sequence ids of the accepted deltas and trades strictly increase
   and exceed the snapshot's, and the book's last sequence id is the highest one heard.
   */
  lemma AcceptedIdsIncrease(es: seq<Event>)
    ensures var h, last := AfterAll(NOTHING, es).heard, Run(FRESH, es).lastSeq;
            && (forall i, j :: 0 <= i < j < |h.accepted| ==> h.accepted[i] < h.accepted[j])
            && (last.None? ==> h.accepted == [] && h.wasted == [])
            && (last.Some? ==> last.value in h.accepted || last.value in h.wasted)
            && (forall n :: n in h.accepted || n in h.wasted ==> last.Some? && n <= last.value)
  {
    RunFollowsReference(FRESH, NOTHING, es);
  }

  /**
   In every run a live book takes a good delta if and only if it has no id or one above every id heard since the last
   accepted snapshot. A stale one leaves levels and last sequence id as they are; a taken one moves one level of its
   own side by its quantity, down to nothing.
   */
  lemma LiveDeltaAcceptedIff(es: seq<Event>, e: Event)
    requires e.eventType == DeltaType && e.data.DeltaPayload? && Run(FRESH, es).hasSnapshot
    ensures var b, h, d := Run(FRESH, es), AfterAll(NOTHING, es).heard, e.data.delta;
            var (b', ok) := Step(b, e);
            var fits := IdOf(e).None? || forall n :: n in h.accepted || n in h.wasted ==> n < IdOf(e).value;
            && (ok <==> GoodDelta(d) && fits)
            && (!ok ==> b'.bids == b.bids && b'.asks == b.asks)
            && (!fits ==> b'.lastSeq == b.lastSeq)
            && (fits && IdOf(e).Some? ==> b'.lastSeq == IdOf(e))
            && (ok && (d.side == Bid || d.side == Buy) ==>
                  b'.asks == b.asks && QtyAt(b'.bids, d.price) == Max(0, QtyAt(b.bids, d.price) + d.qty))
            && (ok && (d.side == Ask || d.side == Sell) ==>
                  b'.bids == b.bids && QtyAt(b'.asks, d.price) == Max(0, QtyAt(b.asks, d.price) + d.qty))
  {
    var b, h := Run(FRESH, es), AfterAll(NOTHING, es).heard;
    RunFollowsReference(FRESH, NOTHING, es);
    LiveDeltaCases(b, h, e);
    LiveDeltaMoves(b, e);
    AboveMeans(h, IdOf(e));
  }

  lemma LiveDeltaMoves(b: Book, e: Event)
    requires e.eventType == DeltaType && e.data.DeltaPayload? && b.hasSnapshot && !b.desynced
    ensures var d := e.data.delta;
            var (b', ok) := Step(b, e);
            && (!ok ==> b'.bids == b.bids && b'.asks == b.asks)
            && (ok && (d.side == Bid || d.side == Buy) ==>
                  b'.asks == b.asks && QtyAt(b'.bids, d.price) == Max(0, QtyAt(b.bids, d.price) + d.qty))
            && (ok && (d.side == Ask || d.side == Sell) ==>
                  b'.bids == b.bids && QtyAt(b'.asks, d.price) == Max(0, QtyAt(b.asks, d.price) + d.qty))
  {
  }

  lemma AboveMeans(h: Heard, id: Option<nat>)
    ensures Passes(h, id) <==> id.None? || forall n :: n in h.accepted || n in h.wasted ==> n < id.value
  {
    if id.Some? && forall n :: n in h.accepted || n in h.wasted ==> n < id.value {
      forall i | 0 <= i < |h.accepted| ensures h.accepted[i] < id.value {
        assert h.accepted[i] in h.accepted;
      }
      forall i | 0 <= i < |h.wasted| ensures h.wasted[i] < id.value {
        assert h.wasted[i] in h.wasted;
      }
    }
  }

  // ---------------------------------------------------------------- malformed deltas hold up the sequence

  function DeltaEvent(id: nat, d: DeltaData): Event {
    Event(DeltaType, "M", Some(id), 0, DeltaPayload(d))
  }

  predicate TakesAboveAccepted(b: Book, h: Heard, e: Event)
    requires e.data.DeltaPayload?
  {
    GoodDelta(e.data.delta) ==> (Step(b, e).1 <==> IdOf(e).None? || Above(h.accepted, IdOf(e).value))
  }

  /**
   A live book compares with the accepted ids alone exactly if every id a malformed delta carried is below some accepted
   one: the sequence advances before a delta's payload is looked at, so a refused delta can make good ones stale.
   */
  lemma FilterSeesOnlyAcceptedIff(es: seq<Event>)
    requires Run(FRESH, es).hasSnapshot
    ensures var b, h := Run(FRESH, es), AfterAll(NOTHING, es).heard;
            (forall e: Event :: e.eventType == DeltaType && e.data.DeltaPayload? ==> TakesAboveAccepted(b, h, e))
            <==> (forall w :: w in h.wasted ==> exists a :: a in h.accepted && w < a)
  {
    var b, h := Run(FRESH, es), AfterAll(NOTHING, es).heard;
    RunFollowsReference(FRESH, NOTHING, es);
    if forall w :: w in h.wasted ==> exists a :: a in h.accepted && w < a {
      forall e: Event | e.eventType == DeltaType && e.data.DeltaPayload? ensures TakesAboveAccepted(b, h, e) {
        LiveDeltaAcceptedIff(es, e);
        AboveMeans(h, IdOf(e));
        if IdOf(e).Some? && Above(h.accepted, IdOf(e).value) {
          AboveAcceptedIsAboveAll(h, IdOf(e).value);
        }
      }
    } else {
      var w :| w in h.wasted && !exists a :: a in h.accepted && w < a;
      var e := DeltaEvent(w, DeltaData(Bid, 0, 0));
      LiveDeltaAcceptedIff(es, e);
      TopWastedIsAboveAccepted(h, w);
      assert !TakesAboveAccepted(b, h, e);
    }
  }

  lemma AboveAcceptedIsAboveAll(h: Heard, n: nat)
    requires Above(h.accepted, n) && forall w :: w in h.wasted ==> exists a :: a in h.accepted && w < a
    ensures Above(h.wasted, n)
  {
    forall i | 0 <= i < |h.wasted| ensures h.wasted[i] < n {
      assert h.wasted[i] in h.wasted;
      var a :| a in h.accepted && h.wasted[i] < a;
      assert a < n;
    }
  }

  lemma TopWastedIsAboveAccepted(h: Heard, w: nat)
    requires Ordered(h) && w in h.wasted && !exists a :: a in h.accepted && w < a
    ensures Above(h.accepted, w)
  {
    forall i | 0 <= i < |h.accepted| ensures h.accepted[i] < w {
      assert h.accepted[i] in h.accepted;
    }
  }

  /** Snapshot 10, a delta 20 without a side: the good delta 15 is refused though only 10 was accepted. */
  lemma MalformedDeltaMakesGoodOneStale()
    ensures var snapshot := Event(SnapshotType, "M", Some(10), 0, SnapshotPayload(SnapshotData([], [])));
            var malformed := DeltaEvent(20, DeltaData(UnknownSide, 1, 1));
            var good := DeltaEvent(15, DeltaData(Bid, 1, 1));
            && AfterAll(NOTHING, [snapshot, malformed]).heard == Heard([10], [20])
            && !Step(Run(FRESH, [snapshot, malformed]), good).1 && Step(Run(FRESH, [snapshot]), good).1
  {
    var snapshot := Event(SnapshotType, "M", Some(10), 0, SnapshotPayload(SnapshotData([], [])));
    var malformed := DeltaEvent(20, DeltaData(UnknownSide, 1, 1));
    var live := Step(FRESH, snapshot).0;
    assert live.lastSeq == Some(10) && live.hasSnapshot;
    assert Run(FRESH, [snapshot]) == Run(live, []);
    assert [snapshot, malformed][1..] == [malformed] && [malformed][1..] == [];
    assert Run(FRESH, [snapshot, malformed]) == Run(Step(live, malformed).0, []);
    var r := After(NOTHING, snapshot).0;
    assert r.heard == Heard([10], []) && r.mode == Live;
    assert AfterAll(NOTHING, [snapshot, malformed]) == AfterAll(After(r, malformed).0, []);
  }
}
