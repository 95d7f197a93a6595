/**
 ProcessPayment (process_payment/main.go): checks the request, reads the payment,
 refuses one that is missing or no longer incomplete, sets its status, then
 publishes a PaymentProcessed event. The read and the write are separate calls:
 the write carries no condition on the stored status.
 */
module PaymentProcessor {
  import opened Records

  /** The request body after it has been unmarshalled. */
  datatype PaymentRequest = PaymentRequest(OrderId: string, Status: string)

  /** The validation gate of the handler. */
  predicate HasRequiredFields(req: PaymentRequest)
    // a request that passes never looks up the empty key, so Lookup's empty id means "no item"
    ensures HasRequiredFields(req) ==> req.OrderId != "" && req.Status != ""
    ensures req.OrderId == "" ==> !HasRequiredFields(req)
  {
    req.OrderId != "" && req.Status != ""
  }

  /** GetOrder's result: the stored payment, or the zero Payment when there is no item. */
  function Lookup(payments: map<string, Payment>, id: string): (p: Payment)
    ensures p.OrderId != "" ==> id in payments && p == payments[id]
    ensures id !in payments ==> p == Payment("", 0, "")
  {
    if id in payments then payments[id] else Payment("", 0, "")
  }

  /**
   The payments table after the UpdateItem of ProcessPayment, which sets `status`
   on the item keyed by `id` (creating the item, as UpdateItem does, when there is none).
   */
  function WithStatus(payments: map<string, Payment>, id: string, status: string): (r: map<string, Payment>)
    ensures r.Keys == payments.Keys + {id}
    ensures r[id].OrderId == id && r[id].Status == status
    ensures id in payments ==> r[id].TotalPrice == payments[id].TotalPrice
    ensures id !in payments ==> r[id] == Payment(id, 0, status)
    ensures forall k | k in payments && k != id :: r[k] == payments[k]
  {
    payments[id := Lookup(payments, id).(OrderId := id, Status := status)]
  }

  /** The payment is there and still incomplete, so the handler goes on to update it. */
  predicate Pending(payments: map<string, Payment>, id: string)
    ensures Pending(payments, id) ==> id in payments && payments[id].Status == Incomplete
  {
    Lookup(payments, id).OrderId != "" && Lookup(payments, id).Status == Incomplete
  }

  /** The invocation gets as far as reading the payment. */
  predicate Reads(f: Faults, request: Option<PaymentRequest>)
  {
    !f.session && request.Some? && HasRequiredFields(request.value) && !f.read
  }

  /** The invocation gets as far as a successful status update. */
  predicate Updates(w: World, f: Faults, request: Option<PaymentRequest>)
  {
    Reads(f, request) && Pending(w.payments, request.value.OrderId) && !f.write
  }

  /** One invocation of the ProcessPayment handler against state `w`. */
  function Step(w: World, f: Faults, request: Option<PaymentRequest>): (r: Outcome)
    // only the payments table and the payments queue are touched
    ensures r.world.orders == w.orders && r.world.orderCreated == w.orderCreated
    ensures r.response.status in {200, 400, 404, 500}
    ensures r.response.err <==> r.response.status == 500
    // refusals (missing fields, not found, already processed) change nothing
    ensures r.response.status in {400, 404} ==> r.world == w
    ensures r.response.status == 400 && r.response.body == Text("Missing required fields") <==>
      !f.session && request.Some? && !HasRequiredFields(request.value)
    ensures r.response.status == 404 <==> Reads(f, request) && Lookup(w.payments, request.value.OrderId).OrderId == ""
    ensures r.response.body == Text("Order already processed") <==>
      Reads(f, request) && Lookup(w.payments, request.value.OrderId).OrderId != ""
      && Lookup(w.payments, request.value.OrderId).Status != Incomplete
    ensures r.response.body == Text("Order already processed") ==>
      r.response.status == 400 && !r.response.err && r.world == w
    // the status is set exactly when the update succeeds, and stays set if the publish fails
    ensures Updates(w, f, request) ==>
      r.world.payments == WithStatus(w.payments, request.value.OrderId, request.value.Status)
    ensures !Updates(w, f, request) ==> r.world.payments == w.payments
    // the event is queued only on full success, and names the updated payment
    ensures r.response.status == 200 <==> Updates(w, f, request) && !f.publish
    ensures r.response.status != 200 ==> r.world.paymentProcessed == w.paymentProcessed
    ensures r.response.status == 200 ==>
      && r.response.body == PaymentJson(r.world.payments[request.value.OrderId])
      && r.world.paymentProcessed == w.paymentProcessed + [PaymentProcessedEvent(request.value.OrderId)]
  {
    if f.session then
      Outcome(w, Response(500, Text("Error initializing AWS session"), true))
    else if request.None? then
      Outcome(w, Response(500, Text("Error unmarshalling request"), true))
    else if !HasRequiredFields(request.value) then
      Outcome(w, Response(400, Text("Missing required fields"), false))
    else if f.read then
      Outcome(w, Response(500, Text("Error getting order"), true))
    else
      var req := request.value;
      var payment := Lookup(w.payments, req.OrderId);
      if payment.OrderId == "" then
        Outcome(w, Response(404, Text("Order not found"), false))
      else if payment.Status != Incomplete then
        Outcome(w, Response(400, Text("Order already processed"), false))
      else if f.write then
        Outcome(w, Response(500, Text("Error processing payment"), true))
      else
        var stored := w.(payments := WithStatus(w.payments, req.OrderId, req.Status));
        var updated := stored.payments[req.OrderId];
        if f.publish then
          Outcome(stored, Response(500, Text("Error sending payment to SQS"), true))
        else
          Outcome(stored.(paymentProcessed := w.paymentProcessed + [PaymentProcessedEvent(updated.OrderId)]),
                  Response(200, PaymentJson(updated), false))
  }

  /** With payments stored under their own ids, the handler's 404 test is exactly "no such payment". */
  lemma NotFoundIffAbsent(payments: map<string, Payment>, id: string)
    requires PaymentsKeyed(payments) && id != ""
    ensures Lookup(payments, id).OrderId == "" <==> id !in payments
  {
  }

  /** A payment whose status left "incomplete" is final: no further call changes it or publishes. */
  lemma AlreadyProcessedIsFinal(w: World, f: Faults, request: Option<PaymentRequest>)
    requires PaymentsKeyed(w.payments)
    requires request.Some? && request.value.OrderId in w.payments
    requires w.payments[request.value.OrderId].Status != Incomplete
    ensures var r := Step(w, f, request);
      && r.world == w && r.response.status != 200
      && (Reads(f, request) ==> r.response == Response(400, Text("Order already processed"), false))
  {
  }

  /**
   Sequentially, ProcessPayment succeeds at most once per order: after a successful
   call with a status other than "incomplete", every later call for that order is
   refused and queues nothing.
   */
  lemma ProcessedThenRejected(w: World, f1: Faults, req1: PaymentRequest, f2: Faults, req2: PaymentRequest)
    requires Step(w, f1, Some(req1)).response.status == 200 && req1.Status != Incomplete
    requires req2.OrderId == req1.OrderId
    ensures var w1 := Step(w, f1, Some(req1)).world;
      var r2 := Step(w1, f2, Some(req2));
      && r2.world == w1 && r2.response.status != 200
      && (Reads(f2, Some(req2)) ==> r2.response == Response(400, Text("Order already processed"), false))
  {
  }

  /**
   The requested status is not checked against "incomplete": such a request
   succeeds and publishes PaymentProcessed while the payment stays processable.
   */
  lemma IncompleteStatusRepublishes(w: World, id: string)
    requires PaymentsKeyed(w.payments) && id != "" && id in w.payments && w.payments[id].Status == Incomplete
    ensures var r := Step(w, NoFaults, Some(PaymentRequest(id, Incomplete)));
      && r.response.status == 200
      && r.world.payments == w.payments
      && r.world.paymentProcessed == w.paymentProcessed + [PaymentProcessedEvent(id)]
      && Pending(r.world.payments, id)
  {
  }

  /** A failed publish after the update keeps the new status and answers 500. */
  lemma PublishFailureKeepsStatus(w: World, f: Faults, request: Option<PaymentRequest>)
    requires Updates(w, f, request) && f.publish
    ensures var r := Step(w, f, request);
      && r.response.status == 500 && r.world.paymentProcessed == w.paymentProcessed
      && r.world.payments[request.value.OrderId].Status == request.value.Status
  {
  }

  /** GetOrder: reads the payment for `id` (marshal, GetItem and unmarshal errors are `readFails`). */
  method GetOrder(c: Cloud, id: string, readFails: bool) returns (payment: Payment, ok: bool)
    ensures ok == !readFails
    ensures ok ==> payment == Lookup(c.payments, id)
  {
    if readFails {
      return Payment("", 0, ""), false;
    }
    if id in c.payments {
      payment := c.payments[id];
    } else {
      payment := Payment("", 0, "");
    }
    ok := true;
  }

  /** ProcessPayment: sets the status with UpdateItem and returns the item as it is afterwards. */
  method ProcessPayment(c: Cloud, req: PaymentRequest, updateFails: bool) returns (payment: Payment, ok: bool)
    modifies c`payments
    ensures ok == !updateFails
    ensures c.payments == if ok then WithStatus(old(c.payments), req.OrderId, req.Status) else old(c.payments)
    ensures ok ==> payment == c.payments[req.OrderId]
  {
    if updateFails {
      return Payment("", 0, ""), false;
    }
    var current := Payment("", 0, "");
    if req.OrderId in c.payments {
      current := c.payments[req.OrderId];
    }
    payment := current.(OrderId := req.OrderId, Status := req.Status);
    c.payments := c.payments[req.OrderId := payment];
    ok := true;
  }

  /** sendToQueue: publishes the PaymentProcessed event for a payment. */
  method SendToQueue(c: Cloud, payment: Payment, publishFails: bool) returns (ok: bool)
    modifies c`paymentProcessed
    ensures ok == !publishFails
    ensures c.paymentProcessed ==
      if ok then old(c.paymentProcessed) + [PaymentProcessedEvent(payment.OrderId)] else old(c.paymentProcessed)
  {
    if publishFails {
      return false;
    }
    c.paymentProcessed := c.paymentProcessed + [PaymentProcessedEvent(payment.OrderId)];
    ok := true;
  }

  /** handler: unmarshal, validate, read, check, update, publish, each failure ending the invocation. */
  method Handler(c: Cloud, f: Faults, request: Option<PaymentRequest>) returns (resp: Response)
    modifies c`payments, c`paymentProcessed
    ensures Outcome(c.State(), resp) == Step(old(c.State()), f, request)
  {
    if f.session {
      return Response(500, Text("Error initializing AWS session"), true);
    }
    if request.None? {
      return Response(500, Text("Error unmarshalling request"), true);
    }
    var req := request.value;
    if !HasRequiredFields(req) {
      return Response(400, Text("Missing required fields"), false);
    }
    var payment, ok := GetOrder(c, req.OrderId, f.read);
    if !ok {
      return Response(500, Text("Error getting order"), true);
    }
    if payment.OrderId == "" {
      return Response(404, Text("Order not found"), false);
    }
    if payment.Status != Incomplete {
      return Response(400, Text("Order already processed"), false);
    }
    var updated;
    updated, ok := ProcessPayment(c, req, f.write);
    if !ok {
      return Response(500, Text("Error processing payment"), true);
    }
    ok := SendToQueue(c, updated, f.publish);
    if !ok {
      return Response(500, Text("Error sending payment to SQS"), true);
    }
    resp := Response(200, PaymentJson(updated), false);
  }
}
