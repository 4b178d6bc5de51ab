/**
 What the customer view shows at any moment, published or not: always a state that the customer was
 in when one of the orders was committed (`ViewIsAlwaysAPastState`), whatever fails, and within one
 web process the states follow each other in order and never go back (`ViewFollowsTheOrders`,
 `ViewNeverGoesBack`).
 */
module ViewHistory {
  import opened Prelude
  import opened Outbox
  import opened OutboxQueue
  import opened OutboxRuns
  import opened OutboxProcess
  import opened OrderStore
  import opened EndToEnd

  // ---- Any faults, any restarts ----

  /** The i-th action committed an order of the customer. */
  predicate PlacedBy(actions: seq<Action>, i: nat, customer: string) {
    && i < |actions| && actions[i].PlaceOrder? && Commits(LedgerOf(actions[..i]), actions[i].call)
    && actions[i].call.order.customerId == customer
  }

  /** The aggregate as the i-th action left it. */
  function AfterOrder(actions: seq<Action>, i: nat): Ledger
    requires i < |actions|
  {
    LedgerOf(actions[..i + 1])
  }

  /** Every changelog row of the customer is the payload of one of the customer's committed orders. */
  lemma {:induction false} RowIsPastOrder(
    actions: seq<Action>, r: Sent, limit: int, transactional: bool, customer: string) returns (i: nat)
    requires r in Table(actions, limit, transactional) && ChannelOf(r) == Ch(customer)
    ensures PlacedBy(actions, i, customer)
    ensures r.payload == Customer(Update(LedgerOf(actions[..i]), actions[i].call))
  {
    if actions == [] {
      assert false;
    } else {
      var n := |actions| - 1;
      var before, last := actions[..n], actions[n];
      assert actions == before + [last];
      var a, b, k := ActionGrowsTable(before, last, limit, transactional);
      if r in Table(before, limit, transactional) {
        i := RowIsPastOrder(before, r, limit, transactional, customer);
        assert before[..i] == actions[..i];
      } else {
        assert |TOPIC_ORDER_CREATED| != |CUSTOMER_TOPIC| && |TOPIC_PAYMENT_COMPLETED| != |CUSTOMER_TOPIC|;
        assert r == k;
        i := n;
      }
    }
  }

  lemma {:induction false} LastOnIsMember(rs: seq<Sent>, ch: Channel)
    requires LastOn(rs, ch).Some?
    ensures LastOn(rs, ch).value in rs && ChannelOf(LastOn(rs, ch).value) == ch
  {
    if ChannelOf(rs[|rs| - 1]) != ch {
      LastOnIsMember(rs[..|rs| - 1], ch);
    }
  }

  /** What the view shows of a customer is a row of the table. */
  lemma ShownIsARow(actions: seq<Action>, limit: int, transactional: bool, customer: string) returns (r: Sent)
    requires customer in CustomerView(OutboxOf(actions, limit, transactional).log)
    ensures r in Table(actions, limit, transactional) && ChannelOf(r) == Ch(customer)
    ensures CustomerView(OutboxOf(actions, limit, transactional).log)[customer] == r.payload
  {
    var log := OutboxOf(actions, limit, transactional).log;
    ViewShowsLastOn(log, customer);
    LastOnIsMember(log, Ch(customer));
    r := LastOn(log, Ch(customer)).value;
    CommittedAreRows(OutboxEvents(actions), r, limit, transactional);
  }

  lemma CommittedAreRows(events: seq<Event<Payload>>, r: Sent, limit: int, transactional: bool)
    requires r in Exec(Initial<Payload>(), events, limit, transactional).log
    ensures r in Parsed(Exec(Initial<Payload>(), events, limit, transactional).rows)
  {
    InitialIsSound<Payload>();
    RunsAreSound(Initial<Payload>(), events, limit, transactional);
  }

  lemma OrderShowsLedger(actions: seq<Action>, i: nat, customer: string)
    requires PlacedBy(actions, i, customer)
    ensures ShowsLedger(Customer(Update(LedgerOf(actions[..i]), actions[i].call)), customer, AfterOrder(actions, i))
  {
    assert actions[..i + 1] == actions[..i] + [actions[i]];
    LedgerAppend(actions[..i], actions[i]);
    UpdateShowsLedger(actions[..i], actions[i].call);
  }

  /** In every run, with failures anywhere, also writes that take effect unseen, with late failures and
      restarts: a customer in the view is shown exactly as some committed order of the customer left the
      aggregate. */
  lemma ViewIsAlwaysAPastState(actions: seq<Action>, limit: int, transactional: bool, customer: string) returns (i: nat)
    requires customer in CustomerView(OutboxOf(actions, limit, transactional).log)
    ensures PlacedBy(actions, i, customer)
    ensures ShowsLedger(CustomerView(OutboxOf(actions, limit, transactional).log)[customer], customer,
                        AfterOrder(actions, i))
  {
    var r := ShownIsARow(actions, limit, transactional, customer);
    i := RowIsPastOrder(actions, r, limit, transactional, customer);
    OrderShowsLedger(actions, i, customer);
  }

  // ---- Within one web process ----

  ghost predicate OneWebProcess(actions: seq<Action>) { forall a :: a in actions ==> !a.RestartProcess? }

  /** The changelog payloads of one customer, oldest first. */
  function Trail(rs: seq<Sent>, customer: string): seq<Payload> {
    if rs == [] then []
    else
      var last := rs[|rs| - 1];
      Trail(rs[..|rs| - 1], customer) + if ChannelOf(last) == Ch(customer) then [last.payload] else []
  }

  /** The customer's payments, oldest first. */
  function Payments(calls: seq<Call>, customer: string): seq<int> {
    if calls == [] then []
    else
      var last := calls[|calls| - 1];
      Payments(calls[..|calls| - 1], customer) +
      if last.order.customerId == customer then [last.payment.amountCents] else []
  }

  function Sum(xs: seq<int>): int { if xs == [] then 0 else Sum(xs[..|xs| - 1]) + xs[|xs| - 1] }

  lemma {:induction false} PaymentsAddUp(calls: seq<Call>, customer: string)
    ensures |Payments(calls, customer)| == OrdersOf(calls, customer)
    ensures Sum(Payments(calls, customer)) == SpentBy(calls, customer)
  {
    if calls != [] {
      var n := |calls| - 1;
      PaymentsAddUp(calls[..n], customer);
      var before := Payments(calls[..n], customer);
      if calls[n].order.customerId == customer {
        assert (before + [calls[n].payment.amountCents])[..|before|] == before;
      } else {
        assert before + [] == before;
      }
    }
  }

  lemma PaymentsAppend(calls: seq<Call>, c: Call, customer: string)
    ensures Payments(calls + [c], customer) ==
            Payments(calls, customer) + if c.order.customerId == customer then [c.payment.amountCents] else []
  {
    assert (calls + [c])[..|calls|] == calls;
  }

  lemma {:induction false} TrailConcat(a: seq<Sent>, b: seq<Sent>, customer: string)
    ensures Trail(a + b, customer) == Trail(a, customer) + Trail(b, customer)
  {
    if b == [] {
      assert a + b == a;
    } else {
      assert (a + b)[..|a + b| - 1] == a + b[..|b| - 1];
      TrailConcat(a, b[..|b| - 1], customer);
    }
  }

  lemma {:induction false} TrailEndsInLast(rs: seq<Sent>, customer: string)
    ensures var trail := Trail(rs, customer);
            && (trail == [] <==> LastOn(rs, Ch(customer)).None?)
            && (trail != [] ==> trail[|trail| - 1] == LastOn(rs, Ch(customer)).value.payload)
  {
    if rs != [] {
      TrailEndsInLast(rs[..|rs| - 1], customer);
    }
  }

  lemma TrailOfThree(was: seq<Sent>, a: Sent, b: Sent, k: Sent, customer: string)
    requires a.topic == TOPIC_ORDER_CREATED && b.topic == TOPIC_PAYMENT_COMPLETED
    ensures Trail(was + [a, b, k], customer) ==
            Trail(was, customer) + if ChannelOf(k) == Ch(customer) then [k.payload] else []
  {
    assert [a, b, k][..2] == [a, b] && [a, b][..1] == [a];
    assert |TOPIC_ORDER_CREATED| != |CUSTOMER_TOPIC| && |TOPIC_PAYMENT_COMPLETED| != |CUSTOMER_TOPIC|;
    assert Trail([a], customer) == [];
    assert Trail([a, b], customer) == [];
    TrailConcat(was, [a, b, k], customer);
  }

  /** The k-th payload carries k orders and the sum of the first k payments. */
  ghost predicate RunningTotals(trail: seq<Payload>, payments: seq<int>, customer: string) {
    && |trail| == |payments|
    && forall k :: 0 <= k < |trail| ==> Totals(trail[k], customer, k + 1, Sum(payments[..k + 1]))
  }

  lemma RunningTotalsGrow(trail: seq<Payload>, payments: seq<int>, customer: string, p: Payload, amount: int)
    requires RunningTotals(trail, payments, customer)
    requires Totals(p, customer, |payments| + 1, Sum(payments) + amount)
    ensures RunningTotals(trail + [p], payments + [amount], customer)
  {
    var n := |payments|;
    assert (payments + [amount])[..n] == payments;
    assert (payments + [amount])[..n + 1] == payments + [amount];
    forall k | 0 <= k < n
      ensures Totals((trail + [p])[k], customer, k + 1, Sum((payments + [amount])[..k + 1]))
    {
      assert (payments + [amount])[..k + 1] == payments[..k + 1];
      assert Totals(trail[k], customer, k + 1, Sum(payments[..k + 1]));
    }
  }

  lemma LateFailuresStay(before: seq<Action>, last: Action, customer: string)
    requires OrdersOf(LedgerOf(before + [last]).late, customer) == 0 && !last.RestartProcess?
    ensures OrdersOf(LedgerOf(before).late, customer) == 0
  {
    LedgerAppend(before, last);
    if last.PlaceOrder? {
      TotalsAppend(LedgerOf(before).late, last.call, customer);
    }
  }

  lemma ActionCarriesTotals(
    was: seq<Sent>, now: seq<Sent>, before: seq<Action>, last: Action, a: Sent, b: Sent, k: Sent, customer: string)
    requires Grows(was, now, LedgerOf(before), last, a, b, k) && OrdersOf(LedgerOf(before).late, customer) == 0
    requires !last.RestartProcess?
    requires RunningTotals(Trail(was, customer), Payments(LedgerOf(before).committed, customer), customer)
    ensures RunningTotals(Trail(now, customer), Payments(LedgerOf(before + [last]).committed, customer), customer)
  {
    LedgerAppend(before, last);
    if last.PlaceOrder? && Commits(LedgerOf(before), last.call) {
      if last.call.order.customerId == customer {
        CommittedTotals(before, last.call, customer);
      }
      ThreeRowsCarryTotals(was, a, b, k, LedgerOf(before).committed, last.call, customer);
    }
  }

  lemma {:induction false} RowsCarryRunningTotals(
    actions: seq<Action>, limit: int, transactional: bool, customer: string)
    requires OrdersOf(LedgerOf(actions).late, customer) == 0 && OneWebProcess(actions)
    ensures RunningTotals(Trail(Table(actions, limit, transactional), customer),
                          Payments(LedgerOf(actions).committed, customer), customer)
  {
    if actions != [] {
      var before := actions[..|actions| - 1];
      var last := actions[|actions| - 1];
      assert actions == before + [last] && last in actions;
      LateFailuresStay(before, last, customer);
      RowsCarryRunningTotals(before, limit, transactional, customer);
      var a, b, k := ActionGrowsTable(before, last, limit, transactional);
      ActionCarriesTotals(Table(before, limit, transactional), Table(actions, limit, transactional),
                          before, last, a, b, k, customer);
    }
  }

  lemma ThreeRowsCarryTotals(
    was: seq<Sent>, a: Sent, b: Sent, k: Sent, committed: seq<Call>, c: Call, customer: string)
    requires a.topic == TOPIC_ORDER_CREATED && b.topic == TOPIC_PAYMENT_COMPLETED
    requires ChannelOf(k) == Ch(c.order.customerId)
    requires RunningTotals(Trail(was, customer), Payments(committed, customer), customer)
    requires c.order.customerId == customer ==>
      Totals(k.payload, customer, |Payments(committed, customer)| + 1,
             Sum(Payments(committed, customer)) + c.payment.amountCents)
    ensures RunningTotals(Trail(was + [a, b, k], customer), Payments(committed + [c], customer), customer)
  {
    TrailOfThree(was, a, b, k, customer);
    PaymentsAppend(committed, c, customer);
    if c.order.customerId == customer {
      RunningTotalsGrow(Trail(was, customer), Payments(committed, customer), customer,
                        k.payload, c.payment.amountCents);
    } else {
      assert Trail(was, customer) + [] == Trail(was, customer);
      assert Payments(committed, customer) + [] == Payments(committed, customer);
    }
  }

  lemma CommittedTotals(actions: seq<Action>, c: Call, customer: string)
    requires Commits(LedgerOf(actions), c) && c.order.customerId == customer
    requires OrdersOf(LedgerOf(actions).late, customer) == 0
    ensures var payments := Payments(LedgerOf(actions).committed, customer);
            Totals(Customer(Update(LedgerOf(actions), c)), customer,
                   |payments| + 1, Sum(payments) + c.payment.amountCents)
  {
    UpdateShowsLedger(actions, c);
    NoOrdersNoSpending(LedgerOf(actions).late, customer);
    TotalsAppend(LedgerOf(actions).committed, c, customer);
    PaymentsAddUp(LedgerOf(actions).committed, customer);
  }

  lemma {:induction false} OneProcessOfEvents(actions: seq<Action>)
    requires OneWebProcess(actions)
    ensures OneProcess(OutboxEvents(actions))
  {
    if actions != [] {
      var last := actions[|actions| - 1];
      assert last in actions;
      OneProcessOfEvents(actions[..|actions| - 1]);
    }
  }

  /** The customer's changelog payloads that have been published, each once. */
  function Published(log: seq<Sent>, customer: string): seq<Payload> { Trail(Firsts(log), customer) }

  lemma PrefixShowsPastState(rows: seq<Sent>, k: nat, log: seq<Sent>, payments: seq<int>, customer: string)
    requires k <= |rows| && LastOn(log, Ch(customer)) == LastOn(rows[..k], Ch(customer))
    requires RunningTotals(Trail(rows, customer), payments, customer)
    ensures var m := |Trail(rows[..k], customer)|;
            && m <= |payments|
            && (customer in CustomerView(log) <==> m > 0)
            && (m > 0 ==> Totals(CustomerView(log)[customer], customer, m, Sum(payments[..m])))
  {
    assert rows == rows[..k] + rows[k..];
    TrailConcat(rows[..k], rows[k..], customer);
    TrailEndsInLast(rows[..k], customer);
    ViewShowsLastOn(log, customer);
    var trail := Trail(rows[..k], customer);
    if trail != [] {
      assert trail[|trail| - 1] == Trail(rows, customer)[|trail| - 1];
    }
  }

  /** From an empty table on, a process has published the first `k` parseable rows, and its log shows them. */
  lemma LogShowsTable(events: seq<Event<Payload>>, t: State<Payload>, limit: int, transactional: bool, ch: Channel)
    returns (k: nat)
    requires OneProcess(events) && t == Exec(Initial<Payload>(), events, limit, transactional)
    ensures k <= |Parsed(t.rows)| && Firsts(t.log) == Parsed(t.rows)[..k]
    ensures LastOn(t.log, ch) == LastOn(Parsed(t.rows)[..k], ch)
  {
    InitialIsSound<Payload>();
    var j;
    WholeLogIsOutput(t);
    WholeTableIsOffered(t);
    j, k := PublishesOnceInOrder(Initial<Payload>(), events, t, limit, transactional, ch);
  }

  /** Within one web process, with failures anywhere, also writes that take effect unseen and are repeated,
      but no late failure of this customer: between polls the view shows the customer as after the m-th
      committed order, with orderCount m and the sum of the first m payments, m being the number of the
      customer's changelog payloads that have been published. */
  lemma ViewFollowsTheOrders(actions: seq<Action>, limit: int, transactional: bool, customer: string)
    requires OneWebProcess(actions) && OrdersOf(LedgerOf(actions).late, customer) == 0
    ensures
      var log := OutboxOf(actions, limit, transactional).log;
      var payments := Payments(LedgerOf(actions).committed, customer);
      var m := |Published(log, customer)|;
      && m <= |payments|
      && (customer in CustomerView(log) <==> m > 0)
      && (m > 0 ==> Totals(CustomerView(log)[customer], customer, m, Sum(payments[..m])))
  {
    var t := OutboxOf(actions, limit, transactional);
    OneProcessOfEvents(actions);
    var k := LogShowsTable(OutboxEvents(actions), t, limit, transactional, Ch(customer));
    RowsCarryRunningTotals(actions, limit, transactional, customer);
    PrefixShowsPastState(Table(actions, limit, transactional), k, t.log,
                         Payments(LedgerOf(actions).committed, customer), customer);
  }

  lemma {:induction false} EventsConcat(before: seq<Action>, after: seq<Action>) returns (more: seq<Event<Payload>>)
    requires OneWebProcess(before) && OneWebProcess(after)
    ensures OutboxEvents(before + after) == OutboxEvents(before) + more && OneProcess(more)
  {
    if after == [] {
      assert before + after == before;
      more := [];
    } else {
      var n := |after| - 1;
      assert after[n] in after;
      assert (before + after)[..|before + after| - 1] == before + after[..n];
      more := EventsConcat(before, after[..n]);
      var step := OutboxEvents(before + after)[|OutboxEvents(before + after[..n])|..];
      more := more + step;
    }
  }

  lemma TrailGrows(a: seq<Sent>, b: seq<Sent>, customer: string)
    requires a <= b
    ensures Trail(a, customer) <= Trail(b, customer)
  {
    assert b == a + b[|a|..];
    TrailConcat(a, b[|a|..], customer);
  }

  lemma LogNeverGoesBack(before: seq<Event<Payload>>, more: seq<Event<Payload>>, limit: int, transactional: bool)
    requires OneProcess(before) && OneProcess(more)
    ensures Firsts(Exec(Initial<Payload>(), before, limit, transactional).log)
         <= Firsts(Exec(Initial<Payload>(), before + more, limit, transactional).log)
  {
    InitialIsSound<Payload>();
    NeverGoesBack(Initial<Payload>(), before, more, limit, transactional);
    WholeLogIsOutput(Exec(Initial<Payload>(), before, limit, transactional));
    WholeLogIsOutput(Exec(Initial<Payload>(), before + more, limit, transactional));
  }

  lemma WholeTableIsOffered(t: State<Payload>)
    ensures OfferedSince(Initial<Payload>(), t) == Parsed(t.rows)
  {
    InitialIsSound<Payload>();
    assert Parsed(Initial<Payload>().rows) == [];
  }

  lemma WholeLogIsOutput(t: State<Payload>)
    ensures Output(Initial<Payload>(), t) == t.log
  {
  }

  /** And it never goes back: what has been published of a customer only grows, so the m of
      `ViewFollowsTheOrders` does. */
  lemma ViewNeverGoesBack(before: seq<Action>, after: seq<Action>, limit: int, transactional: bool, customer: string)
    requires OneWebProcess(before) && OneWebProcess(after)
    ensures Published(OutboxOf(before, limit, transactional).log, customer)
         <= Published(OutboxOf(before + after, limit, transactional).log, customer)
  {
    var more := EventsConcat(before, after);
    OneProcessOfEvents(before);
    LogNeverGoesBack(OutboxEvents(before), more, limit, transactional);
    TrailGrows(Firsts(OutboxOf(before, limit, transactional).log),
               Firsts(OutboxOf(before + after, limit, transactional).log), customer);
  }

  // ---- When nothing lands unseen ----

  ghost predicate NothingLandsUnseen(actions: seq<Action>) {
    forall a :: a in actions && a.Relay? ==> NothingLands(a.faults)
  }

  lemma {:induction false} EventsAreUndisturbed(actions: seq<Action>)
    requires NothingLandsUnseen(actions) && OneWebProcess(actions)
    ensures Undisturbed(OutboxEvents(actions))
  {
    if actions != [] {
      var last := actions[|actions| - 1];
      assert last in actions;
      EventsAreUndisturbed(actions[..|actions| - 1]);
    }
  }

  lemma AscendingIsDistinct<P>(rs: seq<OutboxRow<P>>)
    requires Ascending(rs)
    ensures Distinct(rs)
  {
  }

  lemma AscendingPrefix<P>(rs: seq<OutboxRow<P>>, n: nat)
    requires Ascending(rs) && n <= |rs|
    ensures Ascending(rs[..n])
  {
  }

  /** Then the log itself repeats nothing, and m counts the customer's records in it. */
  lemma PublishedIsTheLog(actions: seq<Action>, limit: int, transactional: bool, customer: string)
    requires NothingLandsUnseen(actions) && OneWebProcess(actions)
    ensures var log := OutboxOf(actions, limit, transactional).log;
            Firsts(log) == log && Published(log, customer) == Trail(log, customer)
  {
    var t := OutboxOf(actions, limit, transactional);
    InitialIsSound<Payload>();
    EventsAreUndisturbed(actions);
    var n := PublishedArePrefix(Initial<Payload>(), OutboxEvents(actions), limit, transactional);
    var offered := Queue(Initial<Payload>()) + NewlyParsed(Initial<Payload>(), t);
    assert t.log == offered[..n];
    AscendingPrefix(offered, n);
    AscendingIsDistinct(t.log);
    FirstsOfDistinct(t.log);
  }
}
