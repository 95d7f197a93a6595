/**
 The OrderCreated consumer (order_created/main.go): for each queued OrderCreated
 event, in order, it puts an incomplete payment into the `payments` table, and it
 stops at the first record that fails to unmarshal or to be written.
 */
module PaymentRecorder {
  import opened Records

  /** The payment AddPayment builds for an event. */
  function NewPayment(e: OrderCreatedEvent): (p: Payment)
    // keyed by the event's order, for the event's price, and open for ProcessPayment
    ensures p.OrderId == e.OrderId && p.TotalPrice == e.TotalPrice
    ensures p.Status == Incomplete
  {
    Payment(e.OrderId, e.TotalPrice, Incomplete)
  }

  /** The payments table after AddPayment's PutItem: an unconditional put. */
  function Recorded(p: map<string, Payment>, e: OrderCreatedEvent): (r: map<string, Payment>)
    ensures r.Keys == p.Keys + {e.OrderId}
    ensures r[e.OrderId] == Payment(e.OrderId, e.TotalPrice, Incomplete)
    ensures forall k | k in p && k != e.OrderId :: r[k] == p[k]
  {
    p[e.OrderId := NewPayment(e)]
  }

  /** The payments table after the events `es` have been recorded one after another. */
  function RecordAll(p: map<string, Payment>, es: seq<OrderCreatedEvent>): map<string, Payment>
    decreases |es|
  {
    if es == [] then p else RecordAll(Recorded(p, es[0]), es[1..])
  }

  /** The loop of the handler: the final table and the error it returns, if any. */
  function Batch(p: map<string, Payment>, ds: seq<Delivery<OrderCreatedEvent>>): (r: (map<string, Payment>, Option<BatchError>))
    ensures r.1 == None <==> FirstFailure(ds) == |ds|
    ensures r.1 != Some(SessionError)
    ensures p.Keys <= r.0.Keys
    decreases |ds|
  {
    if ds == [] then (p, None)
    else if !ds[0].Ok() then (p, Some(ds[0].Error()))
    else Batch(Recorded(p, ds[0].event.value), ds[1..])
  }

  /** The put is unconditional: a payment that was already processed is replaced by an incomplete one. */
  lemma RecordedOverwrites(p: map<string, Payment>, e: OrderCreatedEvent)
    requires e.OrderId in p && p[e.OrderId].Status != Incomplete
    ensures Recorded(p, e)[e.OrderId].Status == Incomplete
    ensures Recorded(p, e)[e.OrderId] != p[e.OrderId]
  {
  }

  /** Recording the same event twice in a row is the same as recording it once. */
  lemma RecordedIdempotent(p: map<string, Payment>, e: OrderCreatedEvent)
    ensures Recorded(Recorded(p, e), e) == Recorded(p, e)
  {
  }

  /**
   The records are handled in order: the batch writes exactly the events before
   the first failing record, and returns that record's error (or none).
   */
  lemma {:induction false} BatchPrefix(p: map<string, Payment>, ds: seq<Delivery<OrderCreatedEvent>>)
    ensures var n := FirstFailure(ds);
      Batch(p, ds) == (RecordAll(p, Events(ds[..n])), if n == |ds| then None else Some(ds[n].Error()))
    decreases |ds|
  {
    var n := FirstFailure(ds);
    if ds != [] && ds[0].Ok() {
      BatchPrefix(Recorded(p, ds[0].event.value), ds[1..]);
      assert FirstFailure(ds[1..]) == n - 1;
      assert Events(ds[..n])[1..] == Events(ds[1..][..n - 1]);
    }
  }

  /** A batch of one good record records its event. */
  lemma SingleRecord(p: map<string, Payment>, e: OrderCreatedEvent)
    ensures Batch(p, [Delivery(Some(e), false)]) == (Recorded(p, e), None)
  {
    assert [Delivery(Some(e), false)][1..] == [];
  }

  /** An empty batch changes nothing and returns no error. */
  lemma EmptyBatch(p: map<string, Payment>)
    ensures Batch(p, []) == (p, None)
  {
  }

  /** Recording a run of events overrides `p` with what the run alone would record. */
  lemma {:induction false} RecordAllOverrides(p: map<string, Payment>, es: seq<OrderCreatedEvent>)
    ensures RecordAll(p, es) == p + RecordAll(map[], es)
    decreases |es|
  {
    if es != [] {
      var e := es[0];
      RecordAllOverrides(Recorded(p, e), es[1..]);
      RecordAllOverrides(Recorded(map[], e), es[1..]);
      RecordAllOverrides(map[], es[1..]);
      var tail := RecordAll(map[], es[1..]);
      assert Recorded(p, e) + tail == p + (Recorded(map[], e) + tail);
    }
  }

  /** Redelivering a whole batch of events leaves the same table as delivering it once. */
  lemma RecordAllIdempotent(p: map<string, Payment>, es: seq<OrderCreatedEvent>)
    ensures RecordAll(RecordAll(p, es), es) == RecordAll(p, es)
  {
    RecordAllOverrides(p, es);
    RecordAllOverrides(RecordAll(p, es), es);
    var tail := RecordAll(map[], es);
    assert (p + tail) + tail == p + tail;
  }

  /** A batch delivered again, whether or not it failed, leaves the table and the error of the first delivery. */
  lemma BatchRedelivery(p: map<string, Payment>, ds: seq<Delivery<OrderCreatedEvent>>)
    ensures Batch(Batch(p, ds).0, ds) == Batch(p, ds)
  {
    BatchPrefix(p, ds);
    BatchPrefix(Batch(p, ds).0, ds);
    RecordAllIdempotent(p, Events(ds[..FirstFailure(ds)]));
  }

  /** Recording two runs one after the other is recording the joined run. */
  lemma {:induction false} RecordAllAppend(p: map<string, Payment>, a: seq<OrderCreatedEvent>, b: seq<OrderCreatedEvent>)
    ensures RecordAll(p, a + b) == RecordAll(RecordAll(p, a), b)
    decreases |a|
  {
    if a == [] {
      assert a + b == b;
    } else {
      assert (a + b)[1..] == a[1..] + b;
      RecordAllAppend(Recorded(p, a[0]), a[1..], b);
    }
  }

  /**
   A retry of a failed batch: the same messages, where the writes may fail
   differently but the retry gets at least as far as the first attempt. The
   table then ends as if the first attempt had never happened.
   */
  lemma BatchRetry(p: map<string, Payment>, ds: seq<Delivery<OrderCreatedEvent>>, retry: seq<Delivery<OrderCreatedEvent>>)
    requires |retry| == |ds| && forall i | 0 <= i < |ds| :: retry[i].event == ds[i].event
    requires FirstFailure(ds) <= FirstFailure(retry)
    ensures Batch(Batch(p, ds).0, retry) == Batch(p, retry)
  {
    var n, m := FirstFailure(ds), FirstFailure(retry);
    var first, all := Events(ds[..n]), Events(retry[..m]);
    assert all == first + all[n..];
    BatchPrefix(p, ds);
    BatchPrefix(p, retry);
    BatchPrefix(RecordAll(p, first), retry);
    RecordAllAppend(p, first, all[n..]);
    RecordAllAppend(RecordAll(p, first), first, all[n..]);
    RecordAllIdempotent(p, first);
  }

  /** Recording never moves a payment out of "incomplete": every entry it changes or adds is incomplete. */
  lemma {:induction false} RecordAllOnlyIncomplete(p: map<string, Payment>, es: seq<OrderCreatedEvent>)
    ensures var r := RecordAll(p, es);
      p.Keys <= r.Keys && forall k | k in r :: r[k].Status == Incomplete || (k in p && r[k] == p[k])
    decreases |es|
  {
    if es != [] {
      RecordAllOnlyIncomplete(Recorded(p, es[0]), es[1..]);
    }
  }

  /** AddPayment: builds the incomplete payment and puts it (marshal and PutItem errors are `putFails`). */
  method AddPayment(c: Cloud, e: OrderCreatedEvent, putFails: bool) returns (ok: bool)
    modifies c`payments
    ensures ok == !putFails
    ensures c.payments == if ok then Recorded(old(c.payments), e) else old(c.payments)
  {
    if putFails {
      return false;
    }
    c.payments := c.payments[e.OrderId := NewPayment(e)];
    ok := true;
  }

  /** handler: records the batch in order and returns at the first error. */
  method Handler(c: Cloud, ds: seq<Delivery<OrderCreatedEvent>>) returns (err: Option<BatchError>)
    modifies c`payments
    ensures (c.payments, err) == Batch(old(c.payments), ds)
  {
    for i := 0 to |ds|
      invariant Batch(c.payments, ds[i..]) == Batch(old(c.payments), ds)
    {
      var d := ds[i];
      assert ds[i..][1..] == ds[i + 1..];
      if d.event.None? {
        return Some(UnmarshalError);
      }
      var ok := AddPayment(c, d.event.value, d.writeFails);
      if !ok {
        return Some(StoreError);
      }
    }
    err := None;
  }
}
