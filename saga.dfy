/**
 The four handlers taken together: a system invariant that every handler keeps
 when ids are fresh and consumers are fed messages from the queues, the path
 create -> record -> process -> ship, and what redelivery does to it.
 */
module Saga {
  import opened Records
  import OrderCoordinator
  import PaymentRecorder
  import PaymentProcessor
  import ShippingActivator

  /** The state after the OrderCreated consumer has handled the records `ds`. */
  function Record(w: World, ds: seq<Delivery<OrderCreatedEvent>>): World
  {
    w.(payments := PaymentRecorder.Batch(w.payments, ds).0)
  }

  /** The state after the PaymentProcessed consumer has handled the records `ds`. */
  function Ship(w: World, sessionFails: bool, ds: seq<Delivery<PaymentProcessedEvent>>): World
  {
    w.(orders := ShippingActivator.Consume(w.orders, sessionFails, ds).0)
  }

  /** Every OrderCreated event names a stored order and carries its price. */
  predicate CreatedMatchOrders(w: World)
  {
    forall e | e in w.orderCreated :: e.OrderId in w.orders && w.orders[e.OrderId].TotalPrice == e.TotalPrice
  }

  /** A payment exists only for a stored order, and carries that order's price. */
  predicate PaymentsMatchOrders(w: World)
  {
    forall k | k in w.payments :: k in w.orders && w.payments[k].TotalPrice == w.orders[k].TotalPrice
  }

  /** Every PaymentProcessed event names a stored payment. */
  predicate ProcessedHavePayments(w: World)
  {
    forall e | e in w.paymentProcessed :: e.OrderId in w.payments
  }

  /** An order is ready to ship only if a PaymentProcessed event for it was published. */
  predicate ShippedWereProcessed(w: World)
  {
    forall k | k in w.orders && w.orders[k].ShippingReady :: PaymentProcessedEvent(k) in w.paymentProcessed
  }

  predicate Inv(w: World)
  {
    && OrdersKeyed(w.orders) && PaymentsKeyed(w.payments)
    && CreatedMatchOrders(w) && PaymentsMatchOrders(w)
    && ProcessedHavePayments(w) && ShippedWereProcessed(w)
  }

  /** Records that the OrderCreated consumer receives were published on the orders queue. */
  predicate FromOrdersQueue(w: World, ds: seq<Delivery<OrderCreatedEvent>>)
  {
    forall i | 0 <= i < |ds| && ds[i].event.Some? :: ds[i].event.value in w.orderCreated
  }

  /** Records that the PaymentProcessed consumer receives were published on the payments queue. */
  predicate FromPaymentsQueue(w: World, ds: seq<Delivery<PaymentProcessedEvent>>)
  {
    forall i | 0 <= i < |ds| && ds[i].event.Some? :: ds[i].event.value in w.paymentProcessed
  }

  /** CreateOrder with a fresh id keeps the invariant, whatever fails. */
  lemma CreateOrderKeepsInv(w: World, f: Faults, id: string, request: Option<OrderCoordinator.OrderRequest>)
    requires Inv(w) && id !in w.orders
    ensures Inv(OrderCoordinator.Step(w, f, id, request).world)
  {
  }

  lemma {:induction false} RecordAllKeepsInv(w: World, es: seq<OrderCreatedEvent>)
    requires Inv(w)
    requires forall i | 0 <= i < |es| :: es[i] in w.orderCreated
    ensures Inv(w.(payments := PaymentRecorder.RecordAll(w.payments, es)))
    decreases |es|
  {
    if es != [] {
      var w1 := w.(payments := PaymentRecorder.Recorded(w.payments, es[0]));
      assert Inv(w1);
      assert forall i | 0 <= i < |es[1..]| :: es[1..][i] == es[i + 1];
      RecordAllKeepsInv(w1, es[1..]);
    }
  }

  /** The OrderCreated consumer, fed from the orders queue, keeps the invariant. */
  lemma RecordKeepsInv(w: World, ds: seq<Delivery<OrderCreatedEvent>>)
    requires Inv(w) && FromOrdersQueue(w, ds)
    ensures Inv(Record(w, ds))
  {
    PaymentRecorder.BatchPrefix(w.payments, ds);
    var n := FirstFailure(ds);
    var es := Events(ds[..n]);
    forall i | 0 <= i < |es| ensures es[i] in w.orderCreated {
      assert ds[..n][i] == ds[i];
    }
    RecordAllKeepsInv(w, es);
  }

  /** ProcessPayment keeps the invariant, whatever fails. */
  lemma ProcessPaymentKeepsInv(w: World, f: Faults, request: Option<PaymentProcessor.PaymentRequest>)
    requires Inv(w)
    ensures Inv(PaymentProcessor.Step(w, f, request).world)
  {
  }

  lemma {:induction false} MarkAllKeepsInv(w: World, es: seq<PaymentProcessedEvent>)
    requires Inv(w)
    requires forall i | 0 <= i < |es| :: es[i] in w.paymentProcessed
    ensures Inv(w.(orders := ShippingActivator.MarkAll(w.orders, es)))
    ensures ShippingActivator.MarkAll(w.orders, es).Keys == w.orders.Keys
    decreases |es|
  {
    if es != [] {
      var w1 := w.(orders := ShippingActivator.Shipped(w.orders, es[0]));
      assert es[0].OrderId in w.orders;
      assert Inv(w1);
      assert forall i | 0 <= i < |es[1..]| :: es[1..][i] == es[i + 1];
      MarkAllKeepsInv(w1, es[1..]);
    }
  }

  /** The PaymentProcessed consumer, fed from the payments queue, keeps the invariant and adds no order. */
  lemma ShipKeepsInv(w: World, sessionFails: bool, ds: seq<Delivery<PaymentProcessedEvent>>)
    requires Inv(w) && FromPaymentsQueue(w, ds)
    ensures Inv(Ship(w, sessionFails, ds))
    ensures Ship(w, sessionFails, ds).orders.Keys == w.orders.Keys
  {
    if !sessionFails {
      ShippingActivator.BatchPrefix(w.orders, ds);
      var n := FirstFailure(ds);
      var es := Events(ds[..n]);
      forall i | 0 <= i < |es| ensures es[i] in w.paymentProcessed {
        assert ds[..n][i] == ds[i];
      }
      MarkAllKeepsInv(w, es);
    }
  }

  /**
   Outside ProcessPayment no step moves a payment out of "incomplete": CreateOrder
   and the PaymentProcessed consumer leave payments alone, and the OrderCreated
   consumer only writes incomplete ones.
   */
  lemma IncompleteLeftOnlyByProcessPayment(
    w: World, k: string,
    f: Faults, id: string, request: Option<OrderCoordinator.OrderRequest>,
    created: seq<Delivery<OrderCreatedEvent>>,
    sessionFails: bool, processed: seq<Delivery<PaymentProcessedEvent>>)
    requires k in w.payments && w.payments[k].Status == Incomplete
    ensures OrderCoordinator.Step(w, f, id, request).world.payments[k].Status == Incomplete
    ensures k in Record(w, created).payments && Record(w, created).payments[k].Status == Incomplete
    ensures Ship(w, sessionFails, processed).payments[k].Status == Incomplete
  {
    PaymentRecorder.BatchPrefix(w.payments, created);
    PaymentRecorder.RecordAllOnlyIncomplete(w.payments, Events(created[..FirstFailure(created)]));
  }

  /** Setting the flag never clears it, under any run of the PaymentProcessed consumer. */
  lemma ShippingReadyMonotone(w: World, k: string, sessionFails: bool, ds: seq<Delivery<PaymentProcessedEvent>>)
    requires k in w.orders && w.orders[k].ShippingReady
    ensures var w1 := Ship(w, sessionFails, ds); k in w1.orders && w1.orders[k].ShippingReady
  {
    if !sessionFails {
      ShippingActivator.BatchPrefix(w.orders, ds);
      ShippingActivator.MarkAllMonotone(w.orders, Events(ds[..FirstFailure(ds)]));
    }
  }

  /**
   The whole workflow with no failures: a valid request creates an order that is
   not ready to ship; recording its event creates an incomplete payment at its
   price; processing that payment sets the status and publishes; applying that
   event makes the order ready to ship. The invariant holds throughout.
   */
  lemma EndToEnd(w: World, id: string, req: OrderCoordinator.OrderRequest, status: string)
    requires Inv(w) && id !in w.orders && id != "" && OrderCoordinator.Valid(req) && status != ""
    ensures
      var order := OrderCoordinator.NewOrder(id, req);
      var created := OrderCreatedEvent(id, req.TotalPrice);
      var c := OrderCoordinator.Step(w, NoFaults, id, Some(req));
      var w2 := Record(c.world, [Delivery(Some(created), false)]);
      var p := PaymentProcessor.Step(w2, NoFaults, Some(PaymentProcessor.PaymentRequest(id, status)));
      var processed := PaymentProcessedEvent(id);
      var w4 := Ship(p.world, false, [Delivery(Some(processed), false)]);
      && c.response == Response(200, OrderJson(order), false) && !order.ShippingReady
      && created in c.world.orderCreated
      && id in w2.payments && w2.payments[id] == Payment(id, req.TotalPrice, Incomplete)
      && p.response == Response(200, PaymentJson(Payment(id, req.TotalPrice, status)), false)
      && processed in p.world.paymentProcessed
      && id in w4.orders && w4.orders[id] == order.(ShippingReady := true)
      && id in w4.payments && w4.payments[id].Status == status
      && Inv(w4)
  {
    var created := OrderCreatedEvent(id, req.TotalPrice);
    var c := OrderCoordinator.Step(w, NoFaults, id, Some(req));
    CreateOrderKeepsInv(w, NoFaults, id, Some(req));
    assert created == c.world.orderCreated[|c.world.orderCreated| - 1];
    var d1 := [Delivery(Some(created), false)];
    RecordKeepsInv(c.world, d1);
    var w2 := Record(c.world, d1);
    PaymentRecorder.SingleRecord(c.world.payments, created);
    var preq := PaymentProcessor.PaymentRequest(id, status);
    var p := PaymentProcessor.Step(w2, NoFaults, Some(preq));
    assert PaymentProcessor.Updates(w2, NoFaults, Some(preq));
    ProcessPaymentKeepsInv(w2, NoFaults, Some(preq));
    var processed := PaymentProcessedEvent(id);
    assert processed == p.world.paymentProcessed[|p.world.paymentProcessed| - 1];
    var d2 := [Delivery(Some(processed), false)];
    ShipKeepsInv(p.world, false, d2);
    ShippingActivator.SingleRecord(p.world.orders, processed);
  }

  /** The example run: user u1 orders 2 widgets for 500 and pays. */
  lemma WidgetExample(id: string)
    requires id != ""
    ensures
      var w := World(map[], map[], [], []);
      var req := OrderCoordinator.OrderRequest("u1", "widget", 2, 500);
      var c := OrderCoordinator.Step(w, NoFaults, id, Some(req));
      var w2 := Record(c.world, [Delivery(Some(OrderCreatedEvent(id, 500)), false)]);
      var p := PaymentProcessor.Step(w2, NoFaults, Some(PaymentProcessor.PaymentRequest(id, "completed")));
      var w4 := Ship(p.world, false, [Delivery(Some(PaymentProcessedEvent(id)), false)]);
      && c.response.body == OrderJson(Order(id, "u1", "widget", 2, 500, false))
      && id in w2.payments && w2.payments[id] == Payment(id, 500, "incomplete")
      && p.response == Response(200, PaymentJson(Payment(id, 500, "completed")), false)
      && id in w4.orders && w4.orders[id].ShippingReady
  {
    EndToEnd(World(map[], map[], [], []), id, OrderCoordinator.OrderRequest("u1", "widget", 2, 500), "completed");
  }

  /**
   The OrderCreated consumer overwrites rather than creating only if absent: a
   redelivered OrderCreated event after the payment was processed reopens it, and
   ProcessPayment then succeeds a second time and publishes a second event.
   */
  lemma RedeliveryReopensPayment(w: World, e: OrderCreatedEvent, status: string)
    requires e.OrderId != "" && status != "" && status != Incomplete
    ensures
      var d := [Delivery(Some(e), false)];
      var req := PaymentProcessor.PaymentRequest(e.OrderId, status);
      var w1 := Record(w, d);
      var p1 := PaymentProcessor.Step(w1, NoFaults, Some(req));
      var w2 := Record(p1.world, d);
      var p2 := PaymentProcessor.Step(w2, NoFaults, Some(req));
      && p1.response.status == 200
      && p1.world.payments[e.OrderId].Status == status
      && e.OrderId in w2.payments && w2.payments[e.OrderId].Status == Incomplete
      && p2.response.status == 200
      && p2.world.paymentProcessed ==
           w.paymentProcessed + [PaymentProcessedEvent(e.OrderId), PaymentProcessedEvent(e.OrderId)]
  {
    var d := [Delivery(Some(e), false)];
    var req := PaymentProcessor.PaymentRequest(e.OrderId, status);
    var w1 := Record(w, d);
    PaymentRecorder.SingleRecord(w.payments, e);
    var p1 := PaymentProcessor.Step(w1, NoFaults, Some(req));
    assert PaymentProcessor.Updates(w1, NoFaults, Some(req));
    var w2 := Record(p1.world, d);
    PaymentRecorder.SingleRecord(p1.world.payments, e);
    assert PaymentProcessor.Updates(w2, NoFaults, Some(req));
  }
}
