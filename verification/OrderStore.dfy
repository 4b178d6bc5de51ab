/**
 Orders, their outbox rows and the running per-customer aggregate (apps/web/src/order-store.ts,
 packages/domain/src/aggregation/customer-state.ts).

 Placing an order is one database transaction, but the aggregate map is not part of it: a failure
 after the map has been updated rolls back the rows and keeps the map.
 */
module OrderStore {
  import opened Prelude
  import Outbox

  const TOPIC_ORDER_CREATED := "orders.created"
  const TOPIC_PAYMENT_COMPLETED := "payments.completed"
  const CUSTOMER_TOPIC := "customers"

  datatype OrderCreated = OrderCreated(
    eventId: string, occurredAt: string, orderId: string, customerId: string, totalCents: int)

  datatype PaymentCompleted = PaymentCompleted(eventId: string, occurredAt: string, orderId: string, amountCents: int)

  datatype CustomerState = CustomerState(
    customerId: string, totalSpentCents: int, orderCount: nat, lastOrderAt: string, updatedAt: string)

  datatype CustomerUpdated = CustomerUpdated(
    eventId: string, occurredAt: string, customerId: string, totalSpentCents: int, orderCount: nat,
    lastOrderAt: string, updatedAt: string)

  datatype Payload =
    | Order(order: OrderCreated) | Payment(payment: PaymentCompleted) | Customer(customer: CustomerUpdated)

  // ---- Aggregation ----

  function ApplyOrder(state: Option<CustomerState>, order: OrderCreated): CustomerState {
    CustomerState(
      order.customerId,
      if state.Some? then state.value.totalSpentCents else 0,
      (if state.Some? then state.value.orderCount else 0) + 1,
      order.occurredAt,
      order.occurredAt)
  }

  function ApplyPayment(state: CustomerState, payment: PaymentCompleted): CustomerState {
    state.(totalSpentCents := state.totalSpentCents + payment.amountCents, updatedAt := payment.occurredAt)
  }

  function ToCustomerUpdated(state: CustomerState, eventId: string): CustomerUpdated {
    CustomerUpdated(eventId, state.updatedAt, state.customerId, state.totalSpentCents, state.orderCount,
                    state.lastOrderAt, state.updatedAt)
  }

  // ---- Placing orders ----

  /** Where a call fails, if it does: at one of the five statements of the transaction. A duplicate
      order id fails at the first whatever the oracle says. */
  datatype Failure = NoFailure | AtOrder | AtOrderRow | AtPaymentRow | AtCustomerRow | AtCommit {
    /** The failures that come after the aggregate map has been updated. */
    predicate Late() { AtCustomerRow? || AtCommit? }
  }

  /** One call, with the event id the domain draws for its changelog event. */
  datatype Call = Call(order: OrderCreated, payment: PaymentCompleted, eventId: string, failure: Failure)

  datatype Db = Db(orderIds: set<string>, rows: seq<Outbox.Row<Payload>>, states: map<string, CustomerState>)

  class OrderStore {
    /** The `orders` table, by its unique order ids. */
    var orderIds: set<string>
    var customerStates: map<string, CustomerState>
    const outbox: Outbox.OutboxStore<Payload>

    function Now(): Db
      reads this, outbox
    {
      Db(orderIds, outbox.rows, customerStates)
    }

    constructor (outbox: Outbox.OutboxStore<Payload>)
      ensures this.outbox == outbox && orderIds == {} && customerStates == map[]
    {
      this.outbox := outbox;
      orderIds, customerStates := {}, map[];
    }

    /** Writes the order, its two event rows and the changelog row in one transaction. */
    method CreateOrderWithOutbox(c: Call) returns (ok: bool)
      requires outbox.Valid()
      modifies this, outbox
      ensures outbox.Valid()
      ensures ok == Succeeds(old(Now()), c)
      ensures !ok ==> outbox.rows == old(outbox.rows) && orderIds == old(orderIds)
      ensures ok ==> |outbox.rows| == |old(outbox.rows)| + 3 && orderIds == old(orderIds) + {c.order.orderId}
      ensures ok ==> ThreeRows(old(outbox.rows), outbox.rows, c, NextState(old(customerStates), c))
      ensures customerStates == if Aggregated(old(Now()), c)
                                then old(customerStates)[c.order.customerId := NextState(old(customerStates), c)]
                                else old(customerStates)
    {
      var savedIds, savedRows, savedNext := orderIds, outbox.rows, outbox.nextId;
      ok := Transaction(c);
      if !ok {
        orderIds, outbox.rows, outbox.nextId := savedIds, savedRows, savedNext;
      }
    }

    /** The statements between BEGIN and COMMIT; false means one of them threw. */
    method Transaction(c: Call) returns (ok: bool)
      requires outbox.Valid()
      modifies this, outbox
      ensures ok ==> outbox.Valid()
      ensures ok == Succeeds(old(Now()), c)
      ensures ok ==> |outbox.rows| == |old(outbox.rows)| + 3 && orderIds == old(orderIds) + {c.order.orderId}
      ensures ok ==> ThreeRows(old(outbox.rows), outbox.rows, c, NextState(old(customerStates), c))
      ensures customerStates == if Aggregated(old(Now()), c)
                                then old(customerStates)[c.order.customerId := NextState(old(customerStates), c)]
                                else old(customerStates)
    {
      if c.order.orderId in orderIds || c.failure == AtOrder {
        return false;
      }
      orderIds := orderIds + {c.order.orderId};
      if c.failure == AtOrderRow {
        return false;
      }
      var first := outbox.InsertPending(TOPIC_ORDER_CREATED, Some(c.order.orderId), Outbox.Json(Order(c.order)));
      if c.failure == AtPaymentRow {
        return false;
      }
      var second :=
        outbox.InsertPending(TOPIC_PAYMENT_COMPLETED, Some(c.order.orderId), Outbox.Json(Payment(c.payment)));
      var prev := if c.order.customerId in customerStates then Some(customerStates[c.order.customerId]) else None;
      var nextState := ApplyPayment(ApplyOrder(prev, c.order), c.payment);
      customerStates := customerStates[c.order.customerId := nextState];
      var event := ToCustomerUpdated(nextState, c.eventId);
      if c.failure == AtCustomerRow {
        return false;
      }
      var third := outbox.InsertPending(CUSTOMER_TOPIC, Some(event.customerId), Outbox.Json(Customer(event)));
      return c.failure != AtCommit;
    }
  }

  // ---- Specification ----

  predicate Succeeds(db: Db, c: Call) {
    c.order.orderId !in db.orderIds && c.failure.NoFailure?
  }

  /** The call reaches the aggregate map. */
  predicate Aggregated(db: Db, c: Call) {
    c.order.orderId !in db.orderIds && (c.failure.NoFailure? || c.failure.Late())
  }

  function NextState(states: map<string, CustomerState>, c: Call): CustomerState {
    var id := c.order.customerId;
    ApplyPayment(ApplyOrder(if id in states then Some(states[id]) else None, c.order), c.payment)
  }

  /** `after` is `before` with the order row, the payment row and the changelog row, next to each other. */
  predicate ThreeRows(
    before: seq<Outbox.Row<Payload>>, after: seq<Outbox.Row<Payload>>, c: Call, state: CustomerState)
  {
    var n := |before|;
    && |after| == n + 3 && after[..n] == before
    && after[n] == Outbox.Row(after[n].id, "orders.created", Some(c.order.orderId),
                              Outbox.Json(Order(c.order)), false)
    && after[n + 1] == Outbox.Row(after[n + 1].id, "payments.completed", Some(c.order.orderId),
                                  Outbox.Json(Payment(c.payment)), false)
    && after[n + 2] == Outbox.Row(after[n + 2].id, "customers", Some(c.order.customerId),
                                  Outbox.Json(Customer(ToCustomerUpdated(state, c.eventId))), false)
  }

  // ---- Histories of calls in one process ----

  /** What the calls so far have left behind. `committed` is the history of the calls that succeeded,
      `late` of those that failed after the map had been updated. */
  datatype Ledger = Ledger(
    orderIds: set<string>, states: map<string, CustomerState>, committed: seq<Call>, late: seq<Call>)

  function Place(l: Ledger, c: Call): Ledger {
    var db := Db(l.orderIds, [], l.states);
    var states := if Aggregated(db, c) then l.states[c.order.customerId := NextState(l.states, c)] else l.states;
    if Succeeds(db, c) then Ledger(l.orderIds + {c.order.orderId}, states, l.committed + [c], l.late)
    else if Aggregated(db, c) then l.(states := states, late := l.late + [c])
    else l
  }

  function Placed(orderIds: set<string>, calls: seq<Call>): Ledger {
    if calls == [] then Ledger(orderIds, map[], [], [])
    else Place(Placed(orderIds, calls[..|calls| - 1]), calls[|calls| - 1])
  }

  /** Where a failure leaves the aggregate alone: at a duplicate order, at the order row, and at the two
      event rows. At the changelog row or at the commit it has been updated already, and the call counts as
      late. */
  lemma FailureLeavesAggregateUntilUpdated(l: Ledger, c: Call)
    ensures c.order.orderId in l.orderIds || c.failure in {AtOrder, AtOrderRow, AtPaymentRow} ==> Place(l, c) == l
    ensures c.order.orderId !in l.orderIds && c.failure in {AtCustomerRow, AtCommit} ==>
              var after := Place(l, c);
              && after.late == l.late + [c] && after.committed == l.committed && after.orderIds == l.orderIds
              && after.states == l.states[c.order.customerId := NextState(l.states, c)]
  {
  }

  function OrdersOf(calls: seq<Call>, customer: string): nat {
    if calls == [] then 0
    else OrdersOf(calls[..|calls| - 1], customer) + if calls[|calls| - 1].order.customerId == customer then 1 else 0
  }

  function SpentBy(calls: seq<Call>, customer: string): int {
    if calls == [] then 0
    else SpentBy(calls[..|calls| - 1], customer) +
         if calls[|calls| - 1].order.customerId == customer then calls[|calls| - 1].payment.amountCents else 0
  }

  function CountIn(states: map<string, CustomerState>, customer: string): nat {
    if customer in states then states[customer].orderCount else 0
  }

  function SpentIn(states: map<string, CustomerState>, customer: string): int {
    if customer in states then states[customer].totalSpentCents else 0
  }

  lemma TotalsAppend(calls: seq<Call>, c: Call, customer: string)
    ensures OrdersOf(calls + [c], customer) ==
            OrdersOf(calls, customer) + if c.order.customerId == customer then 1 else 0
    ensures SpentBy(calls + [c], customer) ==
            SpentBy(calls, customer) + if c.order.customerId == customer then c.payment.amountCents else 0
  {
    assert (calls + [c])[..|calls|] == calls;
  }

  /** The aggregate accounts for every committed order of the customer and for every late failure. */
  predicate Accounts(l: Ledger, customer: string) {
    && CountIn(l.states, customer) == OrdersOf(l.committed, customer) + OrdersOf(l.late, customer)
    && SpentIn(l.states, customer) == SpentBy(l.committed, customer) + SpentBy(l.late, customer)
  }

  /** One more order and its payment, in the aggregate. */
  lemma AggregateGrows(states: map<string, CustomerState>, c: Call, customer: string)
    ensures var next := states[c.order.customerId := NextState(states, c)];
            && CountIn(next, customer) == CountIn(states, customer) + (if c.order.customerId == customer then 1 else 0)
            && SpentIn(next, customer) ==
               SpentIn(states, customer) + if c.order.customerId == customer then c.payment.amountCents else 0
  {
  }

  lemma PlaceKeepsAccounts(l: Ledger, c: Call, customer: string)
    requires Accounts(l, customer)
    ensures Accounts(Place(l, c), customer)
  {
    AggregateGrows(l.states, c, customer);
    var db := Db(l.orderIds, [], l.states);
    if Succeeds(db, c) {
      TotalsAppend(l.committed, c, customer);
    } else if Aggregated(db, c) {
      TotalsAppend(l.late, c, customer);
    }
  }

  lemma {:induction false} AggregateCountsLateFailures(orderIds: set<string>, calls: seq<Call>, customer: string)
    ensures Accounts(Placed(orderIds, calls), customer)
  {
    if calls != [] {
      AggregateCountsLateFailures(orderIds, calls[..|calls| - 1], customer);
      PlaceKeepsAccounts(Placed(orderIds, calls[..|calls| - 1]), calls[|calls| - 1], customer);
    }
  }

  /** In one process the aggregate agrees with a customer's committed orders if and only if none of the
      customer's calls failed after the map update. */
  lemma AggregateIsExactIffNoLateFailure(orderIds: set<string>, calls: seq<Call>, customer: string)
    ensures var l := Placed(orderIds, calls);
            CountIn(l.states, customer) == OrdersOf(l.committed, customer) <==> OrdersOf(l.late, customer) == 0
    ensures var l := Placed(orderIds, calls);
            OrdersOf(l.late, customer) == 0 ==> SpentIn(l.states, customer) == SpentBy(l.committed, customer)
  {
    AggregateCountsLateFailures(orderIds, calls, customer);
    NoOrdersNoSpending(Placed(orderIds, calls).late, customer);
  }

  lemma {:induction false} NoOrdersNoSpending(calls: seq<Call>, customer: string)
    ensures OrdersOf(calls, customer) == 0 ==> SpentBy(calls, customer) == 0
  {
    if calls != [] {
      NoOrdersNoSpending(calls[..|calls| - 1], customer);
    }
  }

  /** The changelog payload of a committed call: with no late failure for that customer before it, the
      k-th committed order carries orderCount = k and the sum of the first k payments. */
  lemma {:induction false} KthOrderCarriesRunningTotals(orderIds: set<string>, calls: seq<Call>, c: Call)
    requires var l := Placed(orderIds, calls);
             Succeeds(Db(l.orderIds, [], l.states), c) && OrdersOf(l.late, c.order.customerId) == 0
    ensures var l := Placed(orderIds, calls);
            var event := ToCustomerUpdated(NextState(l.states, c), c.eventId);
            && event.customerId == c.order.customerId
            && event.orderCount == OrdersOf(l.committed + [c], c.order.customerId)
            && event.totalSpentCents == SpentBy(l.committed + [c], c.order.customerId)
            && event.eventId == c.eventId
            && event.lastOrderAt == c.order.occurredAt
            && event.updatedAt == event.occurredAt == c.payment.occurredAt
  {
    var l := Placed(orderIds, calls);
    AggregateIsExactIffNoLateFailure(orderIds, calls, c.order.customerId);
    TotalsAppend(l.committed, c, c.order.customerId);
  }
}
