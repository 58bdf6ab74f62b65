/** The paper trading venue: acknowledges and fills every valid place at its limit price, rejects everything else. */
module PaperVenue {
  import opened MarketTypes
  import opened OmsTypes
  import opened KalshiAdapter

  datatype VenueError = NoError | NotConnected | InvalidPayload | InvalidRequest | UnsupportedRequest

  /** What arrives at the venue: text that is no JSON object, or an object. */
  datatype Payload = Malformed | Object(request: Request)

  datatype Venue = Venue(
    autoFill: bool,
    connected: bool,
    nextExchangeId: nat,
    inbound: seq<Message>,
    lastError: VenueError)

  function Decimal(n: nat): string {
    if n < 10 then [('0' as int + n) as char] else Decimal(n / 10) + Decimal(n % 10)
  }

  function PaperExchangeId(n: nat): string {
    "paper-ex-" + Decimal(n)
  }

  predicate ValidPlaceRequest(r: Request) {
    r.market.Some? && r.qty.Some? && r.limitPrice.Some? && r.side.Some? && r.qty.value > 0
  }

  function AckFor(r: Request, exchangeId: string): Message {
    AckMessage(r.clientId, Some(exchangeId), r.market, r.qty)
  }

  function FillFor(r: Request, exchangeId: string): Message {
    FillMessage(r.clientId, Some(exchangeId), r.market, r.qty, r.limitPrice, r.side)
  }

  function RejectFor(r: Request): Message {
    RejectMessage(r.clientId, None, Some(if r.market.Some? then r.market.value else "paper"),
                  Some("paper_action_unsupported"))
  }

  function Refuse(v: Venue, e: VenueError): (Venue, bool) {
    (v.(lastError := e), false)
  }

  function SendTo(v: Venue, payload: Payload): (Venue, bool) {
    if !v.connected then Refuse(v, NotConnected)
    else if payload.Malformed? then Refuse(v, InvalidPayload)
    else
      var r := payload.request;
      if r.action.None? || r.clientId.None? || r.clientId.value == "" then Refuse(v, InvalidRequest)
      else if r.action.value == "place_order" then
        if !ValidPlaceRequest(r) then Refuse(v, InvalidRequest)
        else
          var x := PaperExchangeId(v.nextExchangeId);
          (v.(nextExchangeId := v.nextExchangeId + 1, lastError := NoError,
              inbound := if v.autoFill then v.inbound + [AckFor(r, x)] + [FillFor(r, x)]
                         else v.inbound + [AckFor(r, x)]), true)
      else if r.action.value == "cancel_order" || r.action.value == "replace_order" then
        (v.(inbound := v.inbound + [RejectFor(r)], lastError := NoError), true)
      else Refuse(v, UnsupportedRequest)
  }

  function RecvFrom(v: Venue): (Venue, Option<Message>) {
    if !v.connected || v.inbound == [] then (v, None)
    else (v.(inbound := v.inbound[1..]), Some(v.inbound[0]))
  }

  class PaperOrderTransport {
    const autoFillOnPlace: bool
    var connected: bool
    var nextExchangeOrderId: nat
    var inboundUpdates: seq<Message>
    var lastError: VenueError

    function View(): Venue
      reads this
    {
      Venue(autoFillOnPlace, connected, nextExchangeOrderId, inboundUpdates, lastError)
    }

    constructor (autoFillOnPlace: bool)
      ensures View() == Venue(autoFillOnPlace, false, 1, [], NoError)
    {
      this.autoFillOnPlace := autoFillOnPlace;
      connected, nextExchangeOrderId, inboundUpdates, lastError := false, 1, [], NoError;
    }

    method Connect()
      modifies this
      ensures View() == old(View()).(connected := true, lastError := NoError)
    {
      connected, lastError := true, NoError;
    }

    method Close()
      modifies this
      ensures View() == old(View()).(connected := false)
    {
      connected := false;
    }

    method SendText(payload: Payload) returns (ok: bool)
      modifies this
      ensures (View(), ok) == SendTo(old(View()), payload)
    {
      if !connected {
        lastError := NotConnected;
        return false;
      }
      if payload.Malformed? {
        lastError := InvalidPayload;
        return false;
      }
      var request := payload.request;
      if request.action.None? || request.clientId.None? || request.clientId.value == "" {
        lastError := InvalidRequest;
        return false;
      }
      if request.action.value == "place_order" {
        if request.market.None? || request.qty.None? || request.limitPrice.None? || request.side.None?
           || request.qty.value <= 0 {
          lastError := InvalidRequest;
          return false;
        }
        var exchangeId := PaperExchangeId(nextExchangeOrderId);
        nextExchangeOrderId := nextExchangeOrderId + 1;
        inboundUpdates := inboundUpdates
            + [AckMessage(request.clientId, Some(exchangeId), request.market, request.qty)];
        if autoFillOnPlace {
          inboundUpdates := inboundUpdates
            + [FillMessage(request.clientId, Some(exchangeId), request.market, request.qty, request.limitPrice,
                           request.side)];
        }
        lastError := NoError;
        return true;
      }
      if request.action.value == "cancel_order" || request.action.value == "replace_order" {
        var market := if request.market.Some? then request.market.value else "paper";
        inboundUpdates := inboundUpdates
            + [RejectMessage(request.clientId, None, Some(market), Some("paper_action_unsupported"))];
        lastError := NoError;
        return true;
      }
      lastError := UnsupportedRequest;
      return false;
    }

    method RecvText() returns (message: Option<Message>)
      modifies this
      ensures (View(), message) == RecvFrom(old(View()))
    {
      if !connected || inboundUpdates == [] {
        return None;
      }
      message := Some(inboundUpdates[0]);
      inboundUpdates := inboundUpdates[1..];
    }
  }

  // ---------------------------------------------------------------- what the venue takes, and the ids it gives

  /** What the venue takes, and how it names what it does not. A refused request changes nothing but the error. */
  lemma VenueTakesIff(v: Venue, payload: Payload)
    ensures var (v', ok) := SendTo(v, payload);
            && (!ok ==> v' == v.(lastError := v'.lastError) && v'.lastError != NoError)
            && (ok ==> v'.lastError == NoError && v.inbound <= v'.inbound && |v.inbound| < |v'.inbound|)
            && (v'.lastError == NotConnected <==> !v.connected)
            && (v.connected ==> (v'.lastError == InvalidPayload <==> payload == Malformed))
            && (v.connected && payload.Object? ==>
                  var r := payload.request;
                  var named := r.action.Some? && r.clientId.Some? && r.clientId != Some("");
                  var placed := && r.market.Some? && r.qty.Some? && r.limitPrice.Some? && r.side.Some?
                                && 0 < r.qty.value;
                  && (v'.lastError == InvalidRequest <==> !named || (r.action == Some("place_order") && !placed))
                  && (ok <==> && named && (r.action == Some("place_order") ==> placed)
                              && r.action in {Some("place_order"), Some("cancel_order"), Some("replace_order")}))
  {
  }

  datatype VenueCall = ToConnect | ToClose | ToSend(payload: Payload) | ToReceive

  function Call(v: Venue, call: VenueCall): Venue {
    match call
    case ToConnect => v.(connected := true, lastError := NoError)
    case ToClose => v.(connected := false)
    case ToSend(payload) => SendTo(v, payload).0
    case ToReceive => RecvFrom(v).0
  }

  /** The exchange id a call makes the venue acknowledge, if any. */
  function AckedId(v: Venue, call: VenueCall): seq<string> {
    var v' := Call(v, call);
    if call.ToSend? && |v.inbound| < |v'.inbound| && v'.inbound[|v.inbound|].AckMessage?
       && v'.inbound[|v.inbound|].exchangeId.Some?
    then [v'.inbound[|v.inbound|].exchangeId.value]
    else []
  }

  function AckedIds(v: Venue, calls: seq<VenueCall>): seq<string>
    decreases |calls|
  {
    if calls == [] then [] else AckedId(v, calls[0]) + AckedIds(Call(v, calls[0]), calls[1..])
  }

  lemma {:induction false} DecimalIsInjective(m: nat, n: nat)
    requires Decimal(m) == Decimal(n)
    ensures m == n
  {
    DecimalEnds(m);
    DecimalEnds(n);
    if m >= 10 && n >= 10 {
      assert Decimal(m)[..|Decimal(m)| - 1] == Decimal(m / 10);
      assert Decimal(n)[..|Decimal(n)| - 1] == Decimal(n / 10);
      DecimalIsInjective(m / 10, n / 10);
    }
  }

  /** The last digit, and how one digit differs from several. */
  lemma DecimalEnds(n: nat)
    ensures |Decimal(n)| > 0 && Decimal(n)[|Decimal(n)| - 1] as int == '0' as int + n % 10
    ensures |Decimal(n)| == 1 <==> n < 10
  {
    if n >= 10 {
      assert |Decimal(n % 10)| == 1;
      assert |Decimal(n / 10)| > 0 by {
        DecimalIsNotEmpty(n / 10);
      }
    }
  }

  lemma {:induction false} DecimalIsNotEmpty(n: nat)
    ensures |Decimal(n)| > 0
  {
    if n >= 10 {
      DecimalIsNotEmpty(n / 10);
    }
  }

  lemma ExchangeIdIsInjective(m: nat, n: nat)
    requires PaperExchangeId(m) == PaperExchangeId(n)
    ensures m == n
  {
    assert PaperExchangeId(m)[9..] == Decimal(m) && PaperExchangeId(n)[9..] == Decimal(n);
    DecimalIsInjective(m, n);
  }

  lemma CallNumbers(v: Venue, call: VenueCall)
    ensures var ids := AckedId(v, call);
            && Call(v, call).nextExchangeId == v.nextExchangeId + |ids|
            && (ids != [] ==> ids == [PaperExchangeId(v.nextExchangeId)])
  {
  }

  lemma {:induction false} CallsNumberOn(v: Venue, calls: seq<VenueCall>, i: nat)
    requires i < |AckedIds(v, calls)|
    ensures AckedIds(v, calls)[i] == PaperExchangeId(v.nextExchangeId + i)
    decreases |calls|
  {
    var ids := AckedId(v, calls[0]);
    CallNumbers(v, calls[0]);
    if |ids| <= i {
      CallsNumberOn(Call(v, calls[0]), calls[1..], i - |ids|);
    }
  }

  /** Whatever the venue is asked to do, no two acknowledged places get the same exchange id. */
  lemma ExchangeIdsAreDistinct(v: Venue, calls: seq<VenueCall>, i: nat, j: nat)
    requires i < j < |AckedIds(v, calls)|
    ensures AckedIds(v, calls)[i] != AckedIds(v, calls)[j]
  {
    CallsNumberOn(v, calls, i);
    CallsNumberOn(v, calls, j);
    if AckedIds(v, calls)[i] == AckedIds(v, calls)[j] {
      ExchangeIdIsInjective(v.nextExchangeId + i, v.nextExchangeId + j);
      assert false;
    }
  }

  // ---------------------------------------------------------------- from an intent to the updates it causes

  function AckUpdate(intent: Intent, exchangeId: string): Update {
    Update(Kalshi, Accepted, intent.clientId, Some(exchangeId), intent.market, AckData(intent.qty))
  }

  function FillUpdate(intent: Intent, exchangeId: string): Update
    requires intent.limitPrice.Some?
  {
    Update(Kalshi, Filled, intent.clientId, Some(exchangeId), intent.market,
           FillData(Fill(intent.market, intent.qty, intent.limitPrice.value, intent.side)))
  }

  /** What the adapter reads in the venue's answer to a place is the placed market, quantity, price and side. */
  lemma PlaceRoundTrip(v: Venue, intent: Intent)
    requires intent.action == Place && BuildRequest(intent).Some? && v.connected
    ensures var (v', ok) := SendTo(v, Object(BuildRequest(intent).value));
            var x := PaperExchangeId(v.nextExchangeId);
            && ok && ValidPlace(intent)
            && |v'.inbound| == |v.inbound| + (if v.autoFill then 2 else 1) && v.inbound <= v'.inbound
            && ParseUpdate(v'.inbound[|v.inbound|]) == Some(AckUpdate(intent, x))
            && (v.autoFill ==> ParseUpdate(v'.inbound[|v.inbound| + 1]) == Some(FillUpdate(intent, x)))
  {
    SideNameRoundTrip(intent.side);
  }

  /** A cancel or replace is answered with a reject of the request's own client id. */
  lemma OtherRoundTrip(v: Venue, intent: Intent)
    requires intent.action != Place && BuildRequest(intent).Some? && v.connected && intent.clientId != ""
    ensures var (v', ok) := SendTo(v, Object(BuildRequest(intent).value));
            && ok && |v'.inbound| == |v.inbound| + 1 && v.inbound <= v'.inbound
            && ParseUpdate(v'.inbound[|v.inbound|])
               == Some(Update(Kalshi, Rejected, intent.clientId, None, "paper", RejectData("paper_action_unsupported")))
  {
    var r := BuildRequest(intent).value;
    assert r.action.value == "cancel_order" || r.action.value == "replace_order";
    assert |r.action.value| != |"place_order"|;
  }
}
