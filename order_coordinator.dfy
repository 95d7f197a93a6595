/**
 CreateOrder (create_order/main.go): validates an order request, writes the new
 order to the `orders` table, then publishes an OrderCreated event.
 The fresh order id, which the Go code draws from uuid.New(), is a parameter.
 */
module OrderCoordinator {
  import opened Records

  /** The request body after it has been unmarshalled. */
  datatype OrderRequest = OrderRequest(UserId: string, Item: string, Quantity: int, TotalPrice: int)

  /** The validation gate: only empty strings and zero numbers are refused. */
  predicate Valid(req: OrderRequest)
    // both strings must be present ...
    ensures Valid(req) ==> req.UserId != "" && req.Item != ""
    // ... but any non-zero number passes, negative ones included
    ensures req.UserId != "" && req.Item != "" && req.Quantity < 0 && req.TotalPrice < 0 ==> Valid(req)
  {
    req.UserId != "" && req.Item != "" && req.Quantity != 0 && req.TotalPrice != 0
  }

  /** The order AddOrder builds: the request's fields, the given id, not ready to ship. */
  function NewOrder(id: string, req: OrderRequest): (order: Order)
    // the event published for the order carries the request's price under the order's id
    ensures Created(order) == OrderCreatedEvent(id, req.TotalPrice)
    ensures !order.ShippingReady
  {
    Order(id, req.UserId, req.Item, req.Quantity, req.TotalPrice, false)
  }

  /** The event sendToQueue publishes for an order. */
  function Created(order: Order): (e: OrderCreatedEvent)
    // the event names the order and carries its price, nothing else
    ensures e.OrderId == order.OrderId && e.TotalPrice == order.TotalPrice
  {
    OrderCreatedEvent(order.OrderId, order.TotalPrice)
  }

  /** True when the invocation gets as far as a successful table write. */
  predicate Stores(f: Faults, request: Option<OrderRequest>)
  {
    !f.session && request.Some? && Valid(request.value) && !f.write
  }

  /** One invocation of the CreateOrder handler against state `w`. */
  function Step(w: World, f: Faults, id: string, request: Option<OrderRequest>): (r: Outcome)
    // only the orders table and the orders queue are touched
    ensures r.world.payments == w.payments && r.world.paymentProcessed == w.paymentProcessed
    // an invalid request is refused with 400 and leaves everything as it was
    ensures r.response.status == 400 <==> !f.session && request.Some? && !Valid(request.value)
    ensures r.response.status == 400 ==> r.world == w && r.response.body == Text("Missing required fields")
    // the write precedes the publish: the order is stored exactly when the write succeeds
    ensures Stores(f, request) ==> r.world.orders == w.orders[id := NewOrder(id, request.value)]
    ensures !Stores(f, request) ==> r.world.orders == w.orders
    // an event is queued only on full success, and then it matches the stored order
    ensures r.response.status == 200 <==> Stores(f, request) && !f.publish
    ensures r.response.status != 200 ==> r.world.orderCreated == w.orderCreated && r.response.status in {400, 500}
    ensures r.response.status == 200 ==>
      && r.response.body == OrderJson(r.world.orders[id])
      && r.world.orderCreated == w.orderCreated + [OrderCreatedEvent(id, request.value.TotalPrice)]
    ensures !r.response.err
  {
    if f.session then
      Outcome(w, Response(500, Text("Error initializing AWS session"), false))
    else if request.None? then
      Outcome(w, Response(500, Text("Error unmarshalling request"), false))
    else if !Valid(request.value) then
      Outcome(w, Response(400, Text("Missing required fields"), false))
    else if f.write then
      Outcome(w, Response(500, Text("Error adding order to DynamoDB"), false))
    else
      var order := NewOrder(id, request.value);
      var stored := w.(orders := w.orders[id := order]);
      if f.publish then
        Outcome(stored, Response(500, Text("Error sending order to SQS"), false))
      else
        Outcome(stored.(orderCreated := w.orderCreated + [Created(order)]),
                Response(200, OrderJson(order), false))
  }

  /**
   With a fresh id, a successful write adds exactly that key, holding an order
   that copies the request and is not ready to ship; every other order is kept.
   */
  lemma FreshOrderStored(w: World, f: Faults, id: string, request: Option<OrderRequest>)
    requires id !in w.orders && Stores(f, request)
    ensures var r := Step(w, f, id, request);
      && r.world.orders.Keys == w.orders.Keys + {id}
      && (forall k | k in w.orders :: r.world.orders[k] == w.orders[k])
      && r.world.orders[id].UserId == request.value.UserId
      && r.world.orders[id].Item == request.value.Item
      && r.world.orders[id].Quantity == request.value.Quantity
      && r.world.orders[id].TotalPrice == request.value.TotalPrice
      && !r.world.orders[id].ShippingReady
  {
  }

  /** Validation refuses only zero: a negative quantity and price go through. */
  lemma NegativeValuesAccepted(w: World, id: string, req: OrderRequest)
    requires req.UserId != "" && req.Item != "" && req.Quantity < 0 && req.TotalPrice < 0
    ensures Step(w, NoFaults, id, Some(req)).response.status == 200
  {
  }

  /** A failed publish after a successful write leaves the order stored and answers 500. */
  lemma PublishFailureKeepsOrder(w: World, f: Faults, id: string, request: Option<OrderRequest>)
    requires Stores(f, request) && f.publish
    ensures var r := Step(w, f, id, request);
      r.response.status == 500 && id in r.world.orders && r.world.orderCreated == w.orderCreated
  {
  }

  /** AddOrder: builds the order and puts it, unconditionally, under its id. */
  method AddOrder(c: Cloud, id: string, req: OrderRequest, putFails: bool) returns (order: Order, ok: bool)
    modifies c`orders
    ensures order == NewOrder(id, req) && ok == !putFails
    ensures c.orders == if ok then old(c.orders)[id := order] else old(c.orders)
  {
    order := NewOrder(id, req);
    if putFails {
      return order, false;
    }
    c.orders := c.orders[id := order];
    ok := true;
  }

  /** sendToQueue: publishes the OrderCreated event for an order. */
  method SendToQueue(c: Cloud, order: Order, sendFails: bool) returns (ok: bool)
    modifies c`orderCreated
    ensures ok == !sendFails
    ensures c.orderCreated == if ok then old(c.orderCreated) + [Created(order)] else old(c.orderCreated)
  {
    if sendFails {
      return false;
    }
    c.orderCreated := c.orderCreated + [Created(order)];
    ok := true;
  }

  /** handler: unmarshal, validate, write, publish, each failure ending the invocation. */
  method Handler(c: Cloud, f: Faults, id: string, request: Option<OrderRequest>) returns (resp: Response)
    modifies c`orders, c`orderCreated
    ensures Outcome(c.State(), resp) == Step(old(c.State()), f, id, request)
  {
    if f.session {
      return Response(500, Text("Error initializing AWS session"), false);
    }
    if request.None? {
      return Response(500, Text("Error unmarshalling request"), false);
    }
    var req := request.value;
    if !Valid(req) {
      return Response(400, Text("Missing required fields"), false);
    }
    var order, ok := AddOrder(c, id, req, f.write);
    if !ok {
      return Response(500, Text("Error adding order to DynamoDB"), false);
    }
    ok := SendToQueue(c, order, f.publish);
    if !ok {
      return Response(500, Text("Error sending order to SQS"), false);
    }
    resp := Response(200, OrderJson(order), false);
  }
}
