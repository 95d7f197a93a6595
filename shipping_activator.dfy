/**
 The PaymentProcessed consumer (payment_processed/main.go): for each queued
 PaymentProcessed event, in order, it sets `shippingReady` on the order with that
 id, and it stops at the first record that fails to unmarshal or to be written.
 */
module ShippingActivator {
  import opened Records

  /**
   The orders table after UpdateOrder's UpdateItem, which sets `shippingReady` to
   true on the item keyed by the event's id; like UpdateItem, it creates an item
   holding only the key and the flag when there is none.
   */
  function Shipped(orders: map<string, Order>, e: PaymentProcessedEvent): (r: map<string, Order>)
    ensures r.Keys == orders.Keys + {e.OrderId}
    ensures r[e.OrderId].ShippingReady
    ensures e.OrderId in orders ==> r[e.OrderId] == orders[e.OrderId].(ShippingReady := true)
    ensures e.OrderId !in orders ==> r[e.OrderId] == Order(e.OrderId, "", "", 0, 0, true)
    ensures forall k | k in orders && k != e.OrderId :: r[k] == orders[k]
  {
    var id := e.OrderId;
    if id in orders then orders[id := orders[id].(ShippingReady := true)]
    else orders[id := Order(id, "", "", 0, 0, true)]
  }

  /** The orders table after the events `es` have been applied one after another. */
  function MarkAll(orders: map<string, Order>, es: seq<PaymentProcessedEvent>): map<string, Order>
    decreases |es|
  {
    if es == [] then orders else MarkAll(Shipped(orders, es[0]), es[1..])
  }

  /** The loop of the handler: the final table and the error it returns, if any. */
  function Batch(orders: map<string, Order>, ds: seq<Delivery<PaymentProcessedEvent>>): (r: (map<string, Order>, Option<BatchError>))
    ensures r.1 == None <==> FirstFailure(ds) == |ds|
    ensures r.1 != Some(SessionError)
    ensures orders.Keys <= r.0.Keys
    decreases |ds|
  {
    if ds == [] then (orders, None)
    else if !ds[0].Ok() then (orders, Some(ds[0].Error()))
    else Batch(Shipped(orders, ds[0].event.value), ds[1..])
  }

  /** The whole handler: a session failure stops it before any record. */
  function Consume(orders: map<string, Order>, sessionFails: bool, ds: seq<Delivery<PaymentProcessedEvent>>): (r: (map<string, Order>, Option<BatchError>))
    ensures r.1 == Some(SessionError) <==> sessionFails
    ensures sessionFails ==> r.0 == orders
    ensures r.1 == None <==> !sessionFails && FirstFailure(ds) == |ds|
  {
    if sessionFails then (orders, Some(SessionError)) else Batch(orders, ds)
  }

  /** Applying the same event twice in a row is the same as applying it once. */
  lemma ShippedIdempotent(orders: map<string, Order>, e: PaymentProcessedEvent)
    ensures Shipped(Shipped(orders, e), e) == Shipped(orders, e)
  {
  }

  /**
   The records are handled in order: the batch applies exactly the events before
   the first failing record, and returns that record's error (or none).
   */
  lemma {:induction false} BatchPrefix(orders: map<string, Order>, ds: seq<Delivery<PaymentProcessedEvent>>)
    ensures var n := FirstFailure(ds);
      Batch(orders, ds) == (MarkAll(orders, Events(ds[..n])), if n == |ds| then None else Some(ds[n].Error()))
    decreases |ds|
  {
    var n := FirstFailure(ds);
    if ds != [] && ds[0].Ok() {
      BatchPrefix(Shipped(orders, ds[0].event.value), ds[1..]);
      assert FirstFailure(ds[1..]) == n - 1;
      assert Events(ds[..n])[1..] == Events(ds[1..][..n - 1]);
    }
  }

  /** A batch of one good record applies its event. */
  lemma SingleRecord(orders: map<string, Order>, e: PaymentProcessedEvent)
    ensures Consume(orders, false, [Delivery(Some(e), false)]) == (Shipped(orders, e), None)
  {
    assert [Delivery(Some(e), false)][1..] == [];
    assert Batch(orders, [Delivery(Some(e), false)]) == Batch(Shipped(orders, e), []);
  }

  /** An empty batch changes nothing and returns no error. */
  lemma EmptyBatch(orders: map<string, Order>)
    ensures Consume(orders, false, []) == (orders, None)
  {
  }

  /**
   Applying events only ever sets the flag: an existing order keeps every other
   field, an order that was ready stays ready, and every event's order ends up ready.
   */
  lemma {:induction false} MarkAllMonotone(orders: map<string, Order>, es: seq<PaymentProcessedEvent>)
    ensures var r := MarkAll(orders, es);
      && orders.Keys <= r.Keys
      && (forall k | k in orders :: r[k] == orders[k].(ShippingReady := r[k].ShippingReady))
      && (forall k | k in orders && orders[k].ShippingReady :: r[k].ShippingReady)
      && (forall i | 0 <= i < |es| :: es[i].OrderId in r && r[es[i].OrderId].ShippingReady)
    decreases |es|
  {
    if es != [] {
      var o1 := Shipped(orders, es[0]);
      MarkAllMonotone(o1, es[1..]);
      var r := MarkAll(orders, es);
      forall i | 0 <= i < |es|
        ensures es[i].OrderId in r && r[es[i].OrderId].ShippingReady
      {
        if i > 0 {
          assert es[i] == es[1..][i - 1];
        }
      }
    }
  }

  /** Events whose orders are all present and ready change nothing. */
  lemma {:induction false} MarkAllFixedPoint(orders: map<string, Order>, es: seq<PaymentProcessedEvent>)
    requires forall i | 0 <= i < |es| :: es[i].OrderId in orders && orders[es[i].OrderId].ShippingReady
    ensures MarkAll(orders, es) == orders
    decreases |es|
  {
    if es != [] {
      assert Shipped(orders, es[0]) == orders;
      assert forall i | 0 <= i < |es[1..]| :: es[1..][i] == es[i + 1];
      MarkAllFixedPoint(orders, es[1..]);
    }
  }

  /** Redelivering a whole run of events leaves the same table as delivering it once. */
  lemma MarkAllIdempotent(orders: map<string, Order>, es: seq<PaymentProcessedEvent>)
    ensures MarkAll(MarkAll(orders, es), es) == MarkAll(orders, es)
  {
    MarkAllMonotone(orders, es);
    MarkAllFixedPoint(MarkAll(orders, es), es);
  }

  /** A batch delivered again, whether or not it failed, leaves the table and the error of the first delivery. */
  lemma BatchRedelivery(orders: map<string, Order>, ds: seq<Delivery<PaymentProcessedEvent>>)
    ensures Batch(Batch(orders, ds).0, ds) == Batch(orders, ds)
  {
    BatchPrefix(orders, ds);
    BatchPrefix(Batch(orders, ds).0, ds);
    MarkAllIdempotent(orders, Events(ds[..FirstFailure(ds)]));
  }

  /** Applying two runs one after the other is applying the joined run. */
  lemma {:induction false} MarkAllAppend(orders: map<string, Order>, a: seq<PaymentProcessedEvent>, b: seq<PaymentProcessedEvent>)
    ensures MarkAll(orders, a + b) == MarkAll(MarkAll(orders, a), b)
    decreases |a|
  {
    if a == [] {
      assert a + b == b;
    } else {
      assert (a + b)[1..] == a[1..] + b;
      MarkAllAppend(Shipped(orders, a[0]), a[1..], b);
    }
  }

  /**
   A retry of a failed batch: the same messages, where the writes may fail
   differently but the retry gets at least as far as the first attempt. The
   table then ends as if the first attempt had never happened.
   */
  lemma BatchRetry(orders: map<string, Order>, ds: seq<Delivery<PaymentProcessedEvent>>, retry: seq<Delivery<PaymentProcessedEvent>>)
    requires |retry| == |ds| && forall i | 0 <= i < |ds| :: retry[i].event == ds[i].event
    requires FirstFailure(ds) <= FirstFailure(retry)
    ensures Batch(Batch(orders, ds).0, retry) == Batch(orders, retry)
  {
    var n, m := FirstFailure(ds), FirstFailure(retry);
    var first, all := Events(ds[..n]), Events(retry[..m]);
    assert all == first + all[n..];
    BatchPrefix(orders, ds);
    BatchPrefix(orders, retry);
    BatchPrefix(MarkAll(orders, first), retry);
    MarkAllAppend(orders, first, all[n..]);
    MarkAllAppend(MarkAll(orders, first), first, all[n..]);
    MarkAllIdempotent(orders, first);
  }

  /** UpdateOrder: sets the flag (expression, marshal and UpdateItem errors are `updateFails`). */
  method UpdateOrder(c: Cloud, e: PaymentProcessedEvent, updateFails: bool) returns (ok: bool)
    modifies c`orders
    ensures ok == !updateFails
    ensures c.orders == if ok then Shipped(old(c.orders), e) else old(c.orders)
  {
    if updateFails {
      return false;
    }
    var id := e.OrderId;
    if id in c.orders {
      c.orders := c.orders[id := c.orders[id].(ShippingReady := true)];
    } else {
      c.orders := c.orders[id := Order(id, "", "", 0, 0, true)];
    }
    ok := true;
  }

  /** handler: opens the session, then applies the batch in order and returns at the first error. */
  method Handler(c: Cloud, sessionFails: bool, ds: seq<Delivery<PaymentProcessedEvent>>) returns (err: Option<BatchError>)
    modifies c`orders
    ensures (c.orders, err) == Consume(old(c.orders), sessionFails, ds)
  {
    if sessionFails {
      return Some(SessionError);
    }
    for i := 0 to |ds|
      invariant Batch(c.orders, ds[i..]) == Batch(old(c.orders), ds)
    {
      var d := ds[i];
      assert ds[i..][1..] == ds[i + 1..];
      if d.event.None? {
        return Some(UnmarshalError);
      }
      var ok := UpdateOrder(c, d.event.value, d.writeFails);
      if !ok {
        return Some(StoreError);
      }
    }
    err := None;
  }
}
