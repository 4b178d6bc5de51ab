/**
 From placing an order to the customer view: the order store writes the outbox (apps/web/src/order-store.ts), the
 relay of the same process publishes it (packages/infra/src/outbox.ts), and the customer view replays the
 `customers` topic (apps/customer-view/src/customer-store.ts).

 The web process is a sequence of placed orders and relay polls in any order, each of which may fail anywhere, and of
 restarts: a new process keeps the database and begins with an empty aggregate and no dispatched ids.
 */
module EndToEnd {
  import opened Prelude
  import opened Outbox
  import opened OutboxQueue
  import opened OutboxRuns
  import opened OrderStore
  import Changelog

  type Sent = OutboxRow<Payload>

  datatype Action = PlaceOrder(call: Call) | Relay(faults: Faults) | RestartProcess

  // ---- The processes as a run of the outbox ----

  const NO_ORDERS := Ledger({}, map[], [], [])

  /** What the calls of the running process have left behind; the order ids are in the database and outlive it. */
  function LedgerOf(actions: seq<Action>): Ledger {
    if actions == [] then NO_ORDERS else LedgerAfter(LedgerOf(actions[..|actions| - 1]), actions[|actions| - 1])
  }

  function LedgerAfter(l: Ledger, last: Action): Ledger {
    match last
    case PlaceOrder(c) => Place(l, c)
    case Relay(_) => l
    case RestartProcess => NO_ORDERS.(orderIds := l.orderIds)
  }

  /** The orders committed by processes before the running one. */
  function Earlier(actions: seq<Action>): seq<Call>
    decreases |actions|, 0
  {
    if actions == [] then []
    else
      var before := actions[..|actions| - 1];
      if actions[|actions| - 1].RestartProcess? then InDatabase(before) else Earlier(before)
  }

  /** All committed orders. */
  function InDatabase(actions: seq<Action>): seq<Call>
    decreases |actions|, 1
  {
    Earlier(actions) + LedgerOf(actions).committed
  }

  predicate Commits(l: Ledger, c: Call) { Succeeds(Db(l.orderIds, [], l.states), c) }

  function Update(l: Ledger, c: Call): CustomerUpdated { ToCustomerUpdated(NextState(l.states, c), c.eventId) }

  /** What a call does to the outbox: its three rows, or nothing. */
  function Inserts(l: Ledger, c: Call): seq<Event<Payload>> {
    if !Commits(l, c) then []
    else [Insert(0, TOPIC_ORDER_CREATED, Some(c.order.orderId), Json(Order(c.order))),
          Insert(0, TOPIC_PAYMENT_COMPLETED, Some(c.order.orderId), Json(Payment(c.payment))),
          Insert(0, CUSTOMER_TOPIC, Some(c.order.customerId), Json(Customer(Update(l, c))))]
  }

  function OutboxEvents(actions: seq<Action>): seq<Event<Payload>> {
    if actions == [] then []
    else
      var before := actions[..|actions| - 1];
      var last := actions[|actions| - 1];
      OutboxEvents(before) +
      match last
      case PlaceOrder(c) => Inserts(LedgerOf(before), c)
      case Relay(f) => [PollOnce(f)]
      case RestartProcess => [Restart]
  }

  function OutboxOf(actions: seq<Action>, limit: int, transactional: bool): State<Payload> {
    Exec(Initial(), OutboxEvents(actions), limit, transactional)
  }

  /** The customer view's input: the records of the customer topic, in log order. */
  function Changes(log: seq<Sent>): seq<Changelog.Change<Payload>> {
    if log == [] then []
    else
      var last := log[|log| - 1];
      Changes(log[..|log| - 1]) +
      if last.topic == CUSTOMER_TOPIC && last.key.Some?
      then [Changelog.Change(last.key.value, Some(last.payload))] else []
  }

  function CustomerView(log: seq<Sent>): map<string, Payload> { Changelog.Replay(Changes(log)) }

  function Ch(customer: string): Channel { Channel(CUSTOMER_TOPIC, Some(customer)) }

  lemma ExecSnoc<P>(s: State<P>, events: seq<Event<P>>, e: Event<P>, limit: int, transactional: bool)
    ensures Exec(s, events + [e], limit, transactional)
         == Apply(Exec(s, events, limit, transactional), e, limit, transactional)
  {
    assert (events + [e])[..|events|] == events;
  }

  lemma InsertAddsRow(
    events: seq<Event<Payload>>, topic: string, key: Option<string>, payload: Payload, limit: int, transactional: bool)
    returns (id: nat)
    ensures Exec(Initial(), events + [Insert(0, topic, key, Json(payload))], limit, transactional).rows
         == Exec(Initial(), events, limit, transactional).rows + [Row(id, topic, key, Json(payload), false)]
  {
    ExecSnoc(Initial(), events, Insert(0, topic, key, Json(payload)), limit, transactional);
    id := NextId(Exec(Initial<Payload>(), events, limit, transactional).rows, 0);
  }

  lemma ThreeRowsInTurn(
    r0: seq<Row<Payload>>, r1: seq<Row<Payload>>, r2: seq<Row<Payload>>, r3: seq<Row<Payload>>,
    a: nat, b: nat, k: nat, c: Call, state: CustomerState)
    requires r1 == r0 + [Row(a, TOPIC_ORDER_CREATED, Some(c.order.orderId), Json(Order(c.order)), false)]
    requires r2 == r1 + [Row(b, TOPIC_PAYMENT_COMPLETED, Some(c.order.orderId), Json(Payment(c.payment)), false)]
    requires r3 == r2 + [Row(k, CUSTOMER_TOPIC, Some(c.order.customerId),
                             Json(Customer(ToCustomerUpdated(state, c.eventId))), false)]
    ensures ThreeRows(r0, r3, c, state)
  {
  }

  /** The three inserts leave exactly the rows that the order store's transaction leaves. */
  lemma InsertsAreThreeRows(events: seq<Event<Payload>>, l: Ledger, c: Call, limit: int, transactional: bool)
    requires Commits(l, c)
    ensures ThreeRows(Exec(Initial(), events, limit, transactional).rows,
                      Exec(Initial(), events + Inserts(l, c), limit, transactional).rows, c, NextState(l.states, c))
  {
    var three := Inserts(l, c);
    var e1, e2 := events + [three[0]], events + [three[0]] + [three[1]];
    var a := InsertAddsRow(events, TOPIC_ORDER_CREATED, Some(c.order.orderId), Order(c.order), limit, transactional);
    var b := InsertAddsRow(e1, TOPIC_PAYMENT_COMPLETED, Some(c.order.orderId), Payment(c.payment),
                           limit, transactional);
    var k := InsertAddsRow(e2, CUSTOMER_TOPIC, Some(c.order.customerId), Customer(Update(l, c)), limit, transactional);
    assert events + three == e2 + [three[2]];
    ThreeRowsInTurn(Exec(Initial(), events, limit, transactional).rows, Exec(Initial(), e1, limit, transactional).rows,
                    Exec(Initial(), e2, limit, transactional).rows,
                    Exec(Initial(), e2 + [three[2]], limit, transactional).rows,
                    a, b, k, c, NextState(l.states, c));
  }

  /** The records of an order and of its payment: on their topics, under the order's id. */
  predicate OrderEvents(c: Call, a: Sent, b: Sent) {
    && a.topic == TOPIC_ORDER_CREATED && b.topic == TOPIC_PAYMENT_COMPLETED
    && a.key == b.key == Some(c.order.orderId)
    && a.payload == Order(c.order) && b.payload == Payment(c.payment)
  }

  lemma ParsedOfThree(before: seq<Row<Payload>>, after: seq<Row<Payload>>, c: Call, state: CustomerState)
    returns (a: Sent, b: Sent, k: Sent)
    requires ThreeRows(before, after, c, state)
    ensures Parsed(after) == Parsed(before) + [a, b, k] && OrderEvents(c, a, b)
    ensures ChannelOf(k) == Ch(c.order.customerId) && k.payload == Customer(ToCustomerUpdated(state, c.eventId))
  {
    var n := |before|;
    a, b, k := View(after[n]), View(after[n + 1]), View(after[n + 2]);
    assert after == before + [after[n]] + [after[n + 1]] + [after[n + 2]];
    ParsedConcat(before + [after[n]] + [after[n + 1]], [after[n + 2]]);
    ParsedConcat(before + [after[n]], [after[n + 1]]);
    ParsedConcat(before, [after[n]]);
    ParsedOne(after[n]);
    ParsedOne(after[n + 1]);
    ParsedOne(after[n + 2]);
  }

  /** A poll changes no row but for its mark. */
  lemma PollKeepsParsed(s: State<Payload>, limit: int, transactional: bool, f: Faults)
    requires Increasing(s.rows)
    ensures Parsed(Poll(s, limit, transactional, f).rows) == Parsed(s.rows)
  {
    var d := PollShape(s, limit, transactional, f);
    ShapeAdvancesQueue(s, Poll(s, limit, transactional, f), d);
  }

  /** The table of parseable rows after the actions, published or not. */
  function Table(actions: seq<Action>, limit: int, transactional: bool): seq<Sent> {
    Parsed(OutboxOf(actions, limit, transactional).rows)
  }

  lemma RelayKeepsTable(actions: seq<Action>, f: Faults, limit: int, transactional: bool)
    ensures Table(actions + [Relay(f)], limit, transactional) == Table(actions, limit, transactional)
  {
    assert (actions + [Relay(f)])[..|actions|] == actions;
    InitialIsSound<Payload>();
    RunsAreSound(Initial<Payload>(), OutboxEvents(actions), limit, transactional);
    ExecSnoc(Initial(), OutboxEvents(actions), PollOnce(f), limit, transactional);
    PollKeepsParsed(OutboxOf(actions, limit, transactional), limit, transactional, f);
  }

  lemma RestartKeepsTable(actions: seq<Action>, limit: int, transactional: bool)
    ensures Table(actions + [RestartProcess], limit, transactional) == Table(actions, limit, transactional)
  {
    assert (actions + [RestartProcess])[..|actions|] == actions;
    ExecSnoc(Initial(), OutboxEvents(actions), Restart, limit, transactional);
  }

  lemma RefusedKeepsTable(actions: seq<Action>, c: Call, limit: int, transactional: bool)
    requires !Commits(LedgerOf(actions), c)
    ensures Table(actions + [PlaceOrder(c)], limit, transactional) == Table(actions, limit, transactional)
  {
    assert (actions + [PlaceOrder(c)])[..|actions|] == actions;
    assert OutboxEvents(actions) + [] == OutboxEvents(actions);
  }

  lemma PlacingGrowsTable(actions: seq<Action>, c: Call, limit: int, transactional: bool)
    returns (a: Sent, b: Sent, k: Sent)
    requires Commits(LedgerOf(actions), c)
    ensures Table(actions + [PlaceOrder(c)], limit, transactional) == Table(actions, limit, transactional) + [a, b, k]
    ensures OrderEvents(c, a, b)
    ensures ChannelOf(k) == Ch(c.order.customerId) && k.payload == Customer(Update(LedgerOf(actions), c))
  {
    assert (actions + [PlaceOrder(c)])[..|actions|] == actions;
    InsertsAreThreeRows(OutboxEvents(actions), LedgerOf(actions), c, limit, transactional);
    a, b, k := ParsedOfThree(OutboxOf(actions, limit, transactional).rows,
                             OutboxOf(actions + [PlaceOrder(c)], limit, transactional).rows,
                             c, NextState(LedgerOf(actions).states, c));
  }

  /** One more action: three rows at the end of the table, or none. */
  ghost predicate Grows(
    was: seq<Sent>, now: seq<Sent>, l: Ledger, last: Action,
    a: Sent, b: Sent, k: Sent)
  {
    if last.PlaceOrder? && Commits(l, last.call) then
      && now == was + [a, b, k] && OrderEvents(last.call, a, b)
      && ChannelOf(k) == Ch(last.call.order.customerId) && k.payload == Customer(Update(l, last.call))
    else now == was
  }

  lemma ActionGrowsTable(before: seq<Action>, last: Action, limit: int, transactional: bool)
    returns (a: Sent, b: Sent, k: Sent)
    ensures Grows(Table(before, limit, transactional), Table(before + [last], limit, transactional),
                  LedgerOf(before), last, a, b, k)
  {
    a := OutboxRow(0, "", None, Order(OrderCreated("", "", "", "", 0)));
    b, k := a, a;
    match last
    case Relay(f) => RelayKeepsTable(before, f, limit, transactional);
    case RestartProcess => RestartKeepsTable(before, limit, transactional);
    case PlaceOrder(c) =>
      if Commits(LedgerOf(before), c) {
        a, b, k := PlacingGrowsTable(before, c, limit, transactional);
      } else {
        RefusedKeepsTable(before, c, limit, transactional);
      }
  }

  lemma LedgerAppend(before: seq<Action>, last: Action)
    ensures LedgerOf(before + [last]) == LedgerAfter(LedgerOf(before), last)
    ensures Earlier(before + [last]) == if last.RestartProcess? then InDatabase(before) else Earlier(before)
  {
    assert (before + [last])[..|before|] == before;
  }

  lemma {:induction false} LedgerAccounts(actions: seq<Action>, customer: string)
    ensures Accounts(LedgerOf(actions), customer)
  {
    if actions != [] {
      var before, last := actions[..|actions| - 1], actions[|actions| - 1];
      LedgerAccounts(before, customer);
      if last.PlaceOrder? {
        PlaceKeepsAccounts(LedgerOf(before), last.call, customer);
      }
    }
  }

  // ---- What the view shows ----

  lemma {:induction false} LatestIsLastOn(log: seq<Sent>, customer: string)
    ensures var newest := LastOn(log, Ch(customer));
            Changelog.Latest(Changes(log), customer) ==
            if newest.None? then None else Some(Changelog.Change(customer, Some(newest.value.payload)))
  {
    if log != [] {
      var n := |log| - 1;
      LatestIsLastOn(log[..n], customer);
      if log[n].topic == CUSTOMER_TOPIC && log[n].key.Some? {
        Changelog.LatestAppend(Changes(log[..n]), Changelog.Change(log[n].key.value, Some(log[n].payload)), customer);
      } else {
        assert Changes(log[..n]) + [] == Changes(log[..n]);
      }
    }
  }

  /** The view shows, for every customer, the payload of the newest record of that customer. */
  lemma ViewShowsLastOn(log: seq<Sent>, customer: string)
    ensures customer in CustomerView(log) <==> LastOn(log, Ch(customer)).Some?
    ensures customer in CustomerView(log) ==> CustomerView(log)[customer] == LastOn(log, Ch(customer)).value.payload
  {
    LatestIsLastOn(log, customer);
    Changelog.ReplayIsLatestWins(Changes(log), customer);
  }

  lemma LastOfThree(was: seq<Sent>, a: Sent, b: Sent, k: Sent, customer: string)
    requires a.topic == TOPIC_ORDER_CREATED && b.topic == TOPIC_PAYMENT_COMPLETED
    ensures LastOn(was + [a, b, k], Ch(customer)) ==
            if ChannelOf(k) == Ch(customer) then Some(k) else LastOn(was, Ch(customer))
  {
    LastOnConcat(was, [a, b, k], Ch(customer));
    assert [a, b, k][..2] == [a, b] && [a, b][..1] == [a];
    assert |TOPIC_ORDER_CREATED| != |CUSTOMER_TOPIC| && |TOPIC_PAYMENT_COMPLETED| != |CUSTOMER_TOPIC|;
    assert LastOn([a], Ch(customer)) == None;
    assert LastOn([a, b], Ch(customer)) == None;
  }

  // ---- When everything is published ----

  /** A process at the moment when it placed an order: the orders of earlier processes, and its own ledger with that
      order. */
  datatype Moment = Moment(earlier: seq<Call>, ledger: Ledger)

  /** The moment when the customer's newest committed order was placed. */
  function AtNewest(actions: seq<Action>, customer: string): Moment {
    if actions == [] then Moment([], NO_ORDERS)
    else
      var before := actions[..|actions| - 1];
      var last := actions[|actions| - 1];
      if last.PlaceOrder? && Commits(LedgerOf(before), last.call) && last.call.order.customerId == customer
      then Moment(Earlier(before), Place(LedgerOf(before), last.call))
      else AtNewest(before, customer)
  }

  /** A payload that shows these totals. */
  predicate Totals(p: Payload, customer: string, orders: int, spent: int) {
    && p.Customer? && p.customer.customerId == customer
    && p.customer.orderCount == orders && p.customer.totalSpentCents == spent
  }

  /** A payload that shows what the ledger accounts for: committed orders and late failures. */
  predicate ShowsLedger(p: Payload, customer: string, l: Ledger) {
    Totals(p, customer, OrdersOf(l.committed, customer) + OrdersOf(l.late, customer),
           SpentBy(l.committed, customer) + SpentBy(l.late, customer))
  }

  /** The newest changelog row of a customer, by the process that placed the newest order. */
  ghost predicate NewestRow(rows: seq<Sent>, l: Ledger, customer: string) {
    var newest := LastOn(rows, Ch(customer));
    && (newest.Some? <==> OrdersOf(l.committed, customer) > 0)
    && (newest.Some? ==> ShowsLedger(newest.value.payload, customer, l))
  }

  /** The changelog payload of a committed order shows the ledger with that order. */
  lemma UpdateShowsLedger(actions: seq<Action>, c: Call)
    requires Commits(LedgerOf(actions), c)
    ensures ShowsLedger(Customer(Update(LedgerOf(actions), c)), c.order.customerId, Place(LedgerOf(actions), c))
    ensures OrdersOf(Place(LedgerOf(actions), c).committed, c.order.customerId) > 0
  {
    LedgerAccounts(actions, c.order.customerId);
    TotalsAppend(LedgerOf(actions).committed, c, c.order.customerId);
  }

  lemma NewestOfThree(was: seq<Sent>, a: Sent, b: Sent, k: Sent, c: Call, l: Ledger, next: Ledger, customer: string)
    requires a.topic == TOPIC_ORDER_CREATED && b.topic == TOPIC_PAYMENT_COMPLETED
    requires ChannelOf(k) == Ch(c.order.customerId)
    requires NewestRow(was, l, customer)
    requires ShowsLedger(k.payload, c.order.customerId, next) && OrdersOf(next.committed, c.order.customerId) > 0
    ensures NewestRow(was + [a, b, k], if c.order.customerId == customer then next else l, customer)
  {
    LastOfThree(was, a, b, k, customer);
  }

  lemma AtNewestAppend(before: seq<Action>, last: Action, customer: string)
    ensures AtNewest(before + [last], customer) ==
            if last.PlaceOrder? && Commits(LedgerOf(before), last.call) && last.call.order.customerId == customer
            then Moment(Earlier(before), Place(LedgerOf(before), last.call))
            else AtNewest(before, customer)
  {
    assert (before + [last])[..|before|] == before;
  }

  lemma ActionKeepsNewestRow(
    was: seq<Sent>, now: seq<Sent>, before: seq<Action>, last: Action, a: Sent, b: Sent, k: Sent, customer: string)
    requires Grows(was, now, LedgerOf(before), last, a, b, k)
    requires NewestRow(was, AtNewest(before, customer).ledger, customer)
    ensures NewestRow(now, AtNewest(before + [last], customer).ledger, customer)
  {
    AtNewestAppend(before, last, customer);
    if last.PlaceOrder? && Commits(LedgerOf(before), last.call) {
      UpdateShowsLedger(before, last.call);
      NewestOfThree(was, a, b, k, last.call, AtNewest(before, customer).ledger,
                    Place(LedgerOf(before), last.call), customer);
    }
  }

  lemma {:induction false} NewestRowIsAggregate(actions: seq<Action>, limit: int, transactional: bool, customer: string)
    ensures NewestRow(Table(actions, limit, transactional), AtNewest(actions, customer).ledger, customer)
  {
    if actions != [] {
      var before := actions[..|actions| - 1];
      var last := actions[|actions| - 1];
      assert actions == before + [last];
      NewestRowIsAggregate(before, limit, transactional, customer);
      var a, b, k := ActionGrowsTable(before, last, limit, transactional);
      ActionKeepsNewestRow(Table(before, limit, transactional), Table(actions, limit, transactional),
                           before, last, a, b, k, customer);
    }
  }

  lemma {:induction false} TotalsConcat(a: seq<Call>, b: seq<Call>, customer: string)
    ensures OrdersOf(a + b, customer) == OrdersOf(a, customer) + OrdersOf(b, customer)
    ensures SpentBy(a + b, customer) == SpentBy(a, customer) + SpentBy(b, customer)
  {
    if b == [] {
      assert a + b == a;
    } else {
      assert (a + b)[..|a + b| - 1] == a + b[..|b| - 1];
      TotalsConcat(a, b[..|b| - 1], customer);
    }
  }

  /** The database holds, of each customer, the orders of earlier processes and those of the process that placed the
      newest. */
  ghost predicate AddsUp(database: seq<Call>, m: Moment, customer: string) {
    && OrdersOf(database, customer) == OrdersOf(m.earlier, customer) + OrdersOf(m.ledger.committed, customer)
    && SpentBy(database, customer) == SpentBy(m.earlier, customer) + SpentBy(m.ledger.committed, customer)
    && (OrdersOf(database, customer) > 0 <==> OrdersOf(m.ledger.committed, customer) > 0)
  }

  lemma ActionAddsUp(before: seq<Action>, last: Action, customer: string)
    requires AddsUp(InDatabase(before), AtNewest(before, customer), customer)
    ensures AddsUp(InDatabase(before + [last]), AtNewest(before + [last], customer), customer)
  {
    assert (before + [last])[..|before|] == before;
    LedgerAppend(before, last);
    TotalsConcat(Earlier(before), LedgerOf(before).committed, customer);
    if last.PlaceOrder? && Commits(LedgerOf(before), last.call) {
      var committed := LedgerOf(before).committed;
      TotalsAppend(committed, last.call, customer);
      TotalsConcat(Earlier(before), committed + [last.call], customer);
    } else if last.RestartProcess? {
      assert InDatabase(before + [last]) == InDatabase(before);
    }
  }

  lemma {:induction false} DatabaseAddsUp(actions: seq<Action>, customer: string)
    ensures AddsUp(InDatabase(actions), AtNewest(actions, customer), customer)
  {
    if actions != [] {
      var before, last := actions[..|actions| - 1], actions[|actions| - 1];
      assert actions == before + [last];
      DatabaseAddsUp(before, customer);
      ActionAddsUp(before, last, customer);
    }
  }

  /** Once the relay has nothing left to publish, whatever failed before, however often blocks were
      republished, and over any number of restarts that were restart-safe: the customer view has exactly the
      customers with a committed order, and shows the totals of the process that placed the customer's
      newest order, as it placed it: its committed orders and the calls of the customer that had failed late
      in it. */
  lemma PublishedViewShowsAggregate(actions: seq<Action>, limit: int, transactional: bool, customer: string)
    requires SafeRestarts(Initial<Payload>(), OutboxEvents(actions), limit, transactional)
    requires Queue(OutboxOf(actions, limit, transactional)) == []
    ensures
      var view := CustomerView(OutboxOf(actions, limit, transactional).log);
      && (customer in view <==> OrdersOf(InDatabase(actions), customer) > 0)
      && (customer in view ==> ShowsLedger(view[customer], customer, AtNewest(actions, customer).ledger))
  {
    var t := OutboxOf(actions, limit, transactional);
    InitialIsSound<Payload>();
    ConvergesDespiteRepublication(Initial<Payload>(), OutboxEvents(actions), limit, transactional);
    assert LastOn(t.log, Ch(customer)) == LastOn(Parsed(t.rows), Ch(customer));
    NewestRowIsAggregate(actions, limit, transactional, customer);
    DatabaseAddsUp(actions, customer);
    ViewShowsLastOn(t.log, customer);
  }

  /** So the published view shows what that process has committed if and only if none of the customer's
      calls had failed late in it. Against the whole database: without orders of earlier processes, it is
      exact if and only if none had failed late; without late failures, if and only if no earlier process
      had committed an order of the customer. */
  lemma PublishedViewIsExactIff(actions: seq<Action>, limit: int, transactional: bool, customer: string)
    requires SafeRestarts(Initial<Payload>(), OutboxEvents(actions), limit, transactional)
    requires Queue(OutboxOf(actions, limit, transactional)) == []
    requires OrdersOf(InDatabase(actions), customer) > 0
    ensures
      var view := CustomerView(OutboxOf(actions, limit, transactional).log);
      var m, all := AtNewest(actions, customer), InDatabase(actions);
      var own := m.ledger.committed;
      var none := OrdersOf(m.ledger.late, customer) == 0;
      var exact :=
        customer in view && Totals(view[customer], customer, OrdersOf(all, customer), SpentBy(all, customer));
      && customer in view
      && (Totals(view[customer], customer, OrdersOf(own, customer), SpentBy(own, customer)) <==> none)
      && (OrdersOf(m.earlier, customer) == 0 ==> (exact <==> none))
      && (none ==> (exact <==> OrdersOf(m.earlier, customer) == 0))
  {
    PublishedViewShowsAggregate(actions, limit, transactional, customer);
    DatabaseAddsUp(actions, customer);
    NoOrdersNoSpending(AtNewest(actions, customer).ledger.late, customer);
    NoOrdersNoSpending(AtNewest(actions, customer).earlier, customer);
  }
}
