/** Order payloads, broker orders, and the rules a recovered order must satisfy. */
module Orders {
  import opened Wrappers
  import opened Text

  // A decimal string: equal fingerprints need equal text, equal volumes only equal values.
  datatype Decimal = Decimal(value: real, scale: nat)

  datatype OrderType = Market | Limit | Stop
  datatype TimeInForce = Gtc | Day | Ioc | Fok

  datatype Intent = Intent(
    clientOrderId: string, symbol: string, direction: int, orderType: OrderType, volume: Decimal,
    limitPrice: Option<Decimal>, stopLoss: Option<Decimal>, takeProfit: Option<Decimal>, timeInForce: TimeInForce)

  datatype Payload = Payload(requestId: string, intent: Intent, submittedAt: int)

  // Hashing is taken as injective.
  datatype PayloadHash = PayloadHash(payload: Payload)

  datatype OrderStatus = PendingOrder | AcceptedOrder | PartiallyFilled | Filled | Cancelled | Rejected

  datatype Order = Order(ticket: int, requestId: string, intent: Intent, status: OrderStatus, filled: real,
                         averagePrice: Option<real>, createdAt: int, updatedAt: int)

  predicate ValidOrder(o: Order) {
    && o.intent.direction in {1, -1}
    && !Blank(o.intent.symbol)
    && 0.0 < o.intent.volume.value
    && 0.0 <= o.filled <= o.intent.volume.value
    && (o.filled > 0.0 <==> o.averagePrice.Some?)
    && (o.averagePrice.Some? ==> 0.0 < o.averagePrice.value)
    && (o.status.Filled? ==> o.filled == o.intent.volume.value)
    && (o.status.PartiallyFilled? ==> 0.0 < o.filled < o.intent.volume.value)
    && (o.status !in {Filled, PartiallyFilled, Cancelled} ==> o.filled == 0.0)
    && o.createdAt <= o.updatedAt
  }

  datatype ContractError = ContractInvalid | OutcomeUnknown

  // Only metadata whose order facts agree with the durable request is restored; old rows may lack a payload.
  function RestoreOrderIntent(o: Order, clientOrderId: string, requestId: string,
                              payload: Option<Payload>): Result<Order, ContractError> {
    var restored :=
      if payload.None? then Some(o.intent)
      else
        var p := payload.value.intent;
        if p.symbol == o.intent.symbol && p.direction == o.intent.direction && p.orderType == o.intent.orderType
           && p.timeInForce == o.intent.timeInForce && 0.0 < p.volume.value == o.intent.volume.value
        then Some(p) else None;
    if restored.None? then Err(ContractInvalid)
    else
      var r := o.(requestId := requestId, intent := restored.value.(clientOrderId := clientOrderId));
      if ValidOrder(r) then Ok(r) else Err(ContractInvalid)
  }

  datatype Response = Response(requestId: string, status: OrderStatus, ticket: Option<int>)

  function RecoveredOrderResult(requestId: string, o: Order): Result<Response, ContractError> {
    if !ValidOrder(o) then Err(ContractInvalid)
    else if o.status.PendingOrder? then Err(OutcomeUnknown)
    else Ok(Response(requestId, o.status, if o.status.Rejected? then None else Some(o.ticket)))
  }

  const SUCCESS_RETCODES := {10008, 10009, 10010}
  const AMBIGUOUS_RETCODES := {10012, 10031}

  // An order number of zero is rendered as the empty string, which no accepted order carries.
  function OrderResult(requestId: string, retcode: int, order: int): Result<Response, ContractError> {
    if retcode !in SUCCESS_RETCODES || order == 0 then Err(ContractInvalid)
    else Ok(Response(requestId, if retcode == 10008 then AcceptedOrder else if retcode == 10009 then Filled
                     else PartiallyFilled,
                     Some(order)))
  }

  /** Recovery accepts exactly the orders that carry the durable request's facts, and hands back that request's own
      intent. */
  lemma RestoredIffAgrees(o: Order, p: Payload)
    ensures var r := RestoreOrderIntent(o, p.intent.clientOrderId, p.requestId, Some(p));
            && (r.Ok? <==>
                  && ValidOrder(o)
                  && o.intent.symbol == p.intent.symbol && o.intent.direction == p.intent.direction
                  && o.intent.orderType == p.intent.orderType && o.intent.timeInForce == p.intent.timeInForce
                  && o.intent.volume.value == p.intent.volume.value)
            && (r.Ok? ==>
                  && r.value.intent == p.intent && r.value.requestId == p.requestId && r.value.ticket == o.ticket
                  && r.value.status == o.status && r.value.filled == o.filled && ValidOrder(r.value))
  {
    var restored := o.(requestId := p.requestId, intent := p.intent);
    if p.intent.symbol == o.intent.symbol && p.intent.direction == o.intent.direction
       && p.intent.volume.value == o.intent.volume.value {
      assert ValidOrder(restored) <==> ValidOrder(o);
    }
  }
}
