/**
 The order of the committed log over whole runs, across any faults and any number of restarts
 (packages/infra/src/outbox.ts). Blocks are republished, but nothing overtakes: when a record is committed,
 every parseable row written before it has been committed. So the first publications are the rows of
 the table in the order in which they were written (`FirstsAreTheTable`), and consumers find the order of
 every payment and of every changelog update (`PaymentFollowsItsOrder`, `UpdateFollowsItsOrder`).
 */
module CommitOrder {
  import opened Prelude
  import opened Outbox
  import opened OutboxQueue
  import opened OutboxRuns
  import opened OutboxProcess
  import opened OrderStore
  import opened EndToEnd

  /** Before each record of the log stand all rows with smaller ids. */
  ghost predicate NothingOvertaken<P>(log: seq<OutboxRow<P>>, rows: seq<OutboxRow<P>>) {
    forall p: nat, r :: p < |log| && r in rows && r.id < log[p].id ==> r in log[..p]
  }

  /** A parseable row that is not in the queue has been committed. */
  lemma OutsideQueueIsCommitted<P>(s: State<P>, r: OutboxRow<P>)
    requires Sound(s) && r in Parsed(s.rows) && r !in Queue(s)
    ensures r in s.log
  {
    ParsedMembers(s.rows, r);
    var i :| 0 <= i < |s.rows| && s.rows[i].payload.Json? && View(s.rows[i]) == r;
    if !s.rows[i].published && r.id !in s.sent {
      WaitingIsQueued(s.rows, s.sent, i);
    } else if !s.rows[i].published {
      var p :| 0 <= p < |s.log| && s.log[p].id == r.id;
      assert s.log[p] in s.log;
      SameIdSameRow(s.rows, s.log[p], r);
    }
  }

  lemma {:induction false} WaitingIsQueued<P>(rows: seq<Row<P>>, sent: set<nat>, i: nat)
    requires i < |rows| && Waits(rows[i], sent)
    ensures View(rows[i]) in QueueOf(rows, sent)
  {
    var n := |rows| - 1;
    assert rows == rows[..n] + [rows[n]];
    QueueAppend(rows[..n], rows[n], sent);
    if i < n {
      WaitingIsQueued(rows[..n], sent, i);
    }
  }

  lemma SameIdSameRow<P>(rows: seq<Row<P>>, a: OutboxRow<P>, b: OutboxRow<P>)
    requires Increasing(rows) && a in Parsed(rows) && b in Parsed(rows) && a.id == b.id
    ensures a == b
  {
    ParsedMembers(rows, a);
    ParsedMembers(rows, b);
  }

  lemma SmallerIsEarlier<P>(q: seq<OutboxRow<P>>, n: nat, r: OutboxRow<P>)
    requires Ascending(q) && n < |q| && r in q && r.id < q[n].id
    ensures r in q[..n]
  {
    var x :| 0 <= x < |q| && q[x] == r;
    assert q[..n][x] == r;
  }

  lemma BeforeQueueEntry<P>(s: State<P>, q: seq<OutboxRow<P>>, n: nat, r: OutboxRow<P>)
    requires Sound(s) && q == Queue(s) && Ascending(q) && n < |q|
    requires r in Parsed(s.rows) && r.id < q[n].id
    ensures r in s.log || r in q[..n]
  {
    if r in q {
      SmallerIsEarlier(q, n, r);
    } else {
      OutsideQueueIsCommitted(s, r);
    }
  }

  lemma PrefixOvertakesNothing<P>(s: State<P>, m: nat)
    requires Sound(s) && NothingOvertaken(s.log, Parsed(s.rows)) && m <= |Queue(s)|
    ensures NothingOvertaken(s.log + Queue(s)[..m], Parsed(s.rows))
  {
    var q := Queue(s);
    QueueIsSorted(s.rows, s.sent);
    forall n: nat, r | n < m && r in Parsed(s.rows) && r.id < q[n].id
      ensures r in s.log || r in q[..n]
    {
      BeforeQueueEntry(s, q, n, r);
    }
    BlockOvertakesNothing(s.log, q, m, Parsed(s.rows));
  }

  lemma BlockOvertakesNothing<P>(
    log: seq<OutboxRow<P>>, q: seq<OutboxRow<P>>, m: nat, rows: seq<OutboxRow<P>>)
    requires NothingOvertaken(log, rows) && m <= |q|
    requires forall n: nat, r :: n < m && r in rows && r.id < q[n].id ==> r in log || r in q[..n]
    ensures NothingOvertaken(log + q[..m], rows)
  {
    var longer := log + q[..m];
    forall p: nat, r | p < |longer| && r in rows && r.id < longer[p].id
      ensures r in longer[..p]
    {
      if p < |log| {
        assert longer[..p] == log[..p];
      } else {
        assert longer[..p] == log + q[..p - |log|];
      }
    }
  }

  lemma NewRowOvertakesNothing<P>(s: State<P>, r: Row<P>)
    requires Sound(s) && NothingOvertaken(s.log, Parsed(s.rows))
    requires forall i :: 0 <= i < |s.rows| ==> s.rows[i].id < r.id
    ensures NothingOvertaken(s.log, Parsed(s.rows + [r]))
  {
    ParsedConcat(s.rows, [r]);
    ParsedOne(r);
    forall p: nat | p < |s.log|
      ensures s.log[p].id < r.id
    {
      assert s.log[p] in s.log;
      ParsedMembers(s.rows, s.log[p]);
    }
  }

  lemma PollOvertakesNothing<P>(s: State<P>, t: State<P>, d: Did)
    requires Sound(s) && NothingOvertaken(s.log, Parsed(s.rows)) && Shape(s, t, d)
    ensures NothingOvertaken(t.log, Parsed(t.rows))
  {
    ShapeAdvancesQueue(s, t, d);
    PrefixOvertakesNothing(s, d.n + d.landed);
  }

  lemma StepOvertakesNothing<P>(s: State<P>, e: Event<P>, limit: int, transactional: bool)
    requires Sound(s) && NothingOvertaken(s.log, Parsed(s.rows))
    ensures NothingOvertaken(Apply(s, e, limit, transactional).log, Parsed(Apply(s, e, limit, transactional).rows))
  {
    match e
    case Insert(gap, topic, key, payload) =>
      NextIdIsNew(s.rows, gap);
      NewRowOvertakesNothing(s, Row(NextId(s.rows, gap), topic, key, payload, false));
    case PollOnce(f) =>
      var d := PollShape(s, limit, transactional, f);
      PollOvertakesNothing(s, Poll(s, limit, transactional, f), d);
    case Restart =>
  }

  /** In every run, with any faults and any number of restarts: no committed record has overtaken a row
      written before its own. */
  lemma {:induction false} NothingOvertakes<P>(events: seq<Event<P>>, limit: int, transactional: bool)
    ensures var s := Exec(Initial<P>(), events, limit, transactional);
            NothingOvertaken(s.log, Parsed(s.rows))
  {
    if events != [] {
      var before := events[..|events| - 1];
      NothingOvertakes(before, limit, transactional);
      RunsAreSound(Initial<P>(), before, limit, transactional);
      StepOvertakesNothing(Exec(Initial<P>(), before, limit, transactional), events[|events| - 1],
                           limit, transactional);
    }
  }

  /** A log of rows in which nothing is overtaken. */
  ghost predicate InOrder<P>(log: seq<OutboxRow<P>>, rows: seq<OutboxRow<P>>) {
    Ascending(rows) && NothingOvertaken(log, rows) && forall e :: e in log ==> e in rows
  }

  lemma PrefixInOrder<P>(log: seq<OutboxRow<P>>, rows: seq<OutboxRow<P>>, n: nat)
    requires n <= |log| && InOrder(log, rows)
    ensures InOrder(log[..n], rows)
  {
    forall p: nat, r | p < n && r in rows && r.id < log[..n][p].id
      ensures r in log[..n][..p]
    {
      assert log[..n][..p] == log[..p] && log[..n][p] == log[p];
    }
  }

  /** It publishes, for the first time each, the rows in order. */
  lemma {:induction false} FirstsInOrder<P>(log: seq<OutboxRow<P>>, rows: seq<OutboxRow<P>>)
    requires InOrder(log, rows)
    ensures Firsts(log) <= rows
  {
    if log != [] {
      var before := log[..|log| - 1];
      PrefixInOrder(log, rows, |log| - 1);
      FirstsInOrder(before, rows);
      FirstsOfOneMore(log, rows, before, Firsts(before));
    }
  }

  lemma FirstsOfOneMore<P>(
    log: seq<OutboxRow<P>>, rows: seq<OutboxRow<P>>, before: seq<OutboxRow<P>>, firsts: seq<OutboxRow<P>>)
    requires InOrder(log, rows) && log != [] && before == log[..|log| - 1]
    requires firsts == Firsts(before) && firsts <= rows
    ensures Firsts(log) <= rows
  {
    var last := log[|log| - 1];
    assert log == before + [last];
    FirstsAppend(before, last);
    FirstsMembers(before, last);
    NextIsNewest(log, rows, |log| - 1, firsts);
  }

  lemma EarlierIsCommitted<P>(log: seq<OutboxRow<P>>, rows: seq<OutboxRow<P>>, n: nat, k: nat, m: nat)
    requires n < |log| && k < m < |rows| && rows[m] == log[n]
    requires Ascending(rows) && NothingOvertaken(log, rows)
    ensures rows[k] in log[..n]
  {
    assert rows[k] in rows;
  }

  lemma NotBefore<P>(rows: seq<OutboxRow<P>>, firsts: seq<OutboxRow<P>>)
    requires Ascending(rows) && firsts <= rows && |firsts| < |rows|
    ensures rows[|firsts|] !in firsts
  {
  }

  lemma NextIsNewest<P>(log: seq<OutboxRow<P>>, rows: seq<OutboxRow<P>>, n: nat, firsts: seq<OutboxRow<P>>)
    requires n < |log| && InOrder(log, rows) && firsts == Firsts(log[..n]) && firsts <= rows
    ensures log[n] in firsts || firsts + [log[n]] <= rows
  {
    var m := IndexOf(log, rows, n);
    var k := |firsts|;
    if m < k {
      assert firsts[m] == log[n];
    } else if m > k {
      EarlierIsCommitted(log, rows, n, k, m);
      FirstsMembers(log[..n], rows[k]);
      NotBefore(rows, firsts);
    }
  }

  lemma IndexOf<P>(log: seq<OutboxRow<P>>, rows: seq<OutboxRow<P>>, n: nat) returns (m: nat)
    requires n < |log| && InOrder(log, rows)
    ensures m < |rows| && rows[m] == log[n]
  {
    assert log[n] in log;
    m :| 0 <= m < |rows| && rows[m] == log[n];
  }

  /** Across all restarts: each record's first publication comes in the order of the table, without gaps. */
  lemma FirstsAreTheTable<P>(events: seq<Event<P>>, limit: int, transactional: bool)
    ensures var s := Exec(Initial<P>(), events, limit, transactional);
            Firsts(s.log) <= Parsed(s.rows)
  {
    NothingOvertakes(events, limit, transactional);
    RunsAreSound(Initial<P>(), events, limit, transactional);
    var s := Exec(Initial<P>(), events, limit, transactional);
    ParsedIsSorted(s.rows);
    FirstsInOrder(s.log, Parsed(s.rows));
  }

  // ---- Orders, payments and updates ----

  /** The rows of one committed order, in the order in which they were written. */
  ghost predicate RowsOfOrder(rows: seq<Sent>, c: Call, state: CustomerState, a: Sent, b: Sent, k: Sent) {
    && a in rows && b in rows && k in rows && a.id < b.id < k.id && OrderEvents(c, a, b)
    && ChannelOf(k) == Ch(c.order.customerId) && k.payload == Customer(ToCustomerUpdated(state, c.eventId))
  }

  ghost predicate IsOrder(actions: seq<Action>, i: nat) {
    i < |actions| && actions[i].PlaceOrder? && Commits(LedgerOf(actions[..i]), actions[i].call)
  }

  lemma NewRowsOfOrder(was: seq<Sent>, now: seq<Sent>, l: Ledger, last: Action, a: Sent, b: Sent, k: Sent)
    requires Grows(was, now, l, last, a, b, k) && Ascending(now)
    requires last.PlaceOrder? && Commits(l, last.call)
    ensures RowsOfOrder(now, last.call, NextState(l.states, last.call), a, b, k)
  {
    var n := |was|;
    assert now[n] == a && now[n + 1] == b && now[n + 2] == k;
  }

  lemma TableAscends(actions: seq<Action>, limit: int, transactional: bool)
    ensures Ascending(Table(actions, limit, transactional))
  {
    RunsAreSound(Initial<Payload>(), OutboxEvents(actions), limit, transactional);
    ParsedIsSorted(OutboxOf(actions, limit, transactional).rows);
  }

  lemma StaysOfAnOrder(
    was: seq<Sent>, now: seq<Sent>, l: Ledger, last: Action, c: Call, state: CustomerState,
    a: Sent, b: Sent, k: Sent, a': Sent, b': Sent, k': Sent)
    requires Grows(was, now, l, last, a', b', k') && RowsOfOrder(was, c, state, a, b, k)
    ensures RowsOfOrder(now, c, state, a, b, k)
  {
  }

  /** Every row belongs to a committed order. */
  lemma {:induction false} RowIsOfAnOrder(actions: seq<Action>, r: Sent, limit: int, transactional: bool)
    returns (i: nat, a: Sent, b: Sent, k: Sent)
    requires r in Table(actions, limit, transactional)
    ensures IsOrder(actions, i)
    ensures RowsOfOrder(Table(actions, limit, transactional), actions[i].call,
                        NextState(LedgerOf(actions[..i]).states, actions[i].call), a, b, k)
    ensures r in {a, b, k}
  {
    if actions == [] {
      assert false;
    } else {
      var n := |actions| - 1;
      var before, last := actions[..n], actions[n];
      assert actions == before + [last];
      var was, now := Table(before, limit, transactional), Table(actions, limit, transactional);
      var l := LedgerOf(before);
      var a1, b1, k1 := ActionGrowsTable(before, last, limit, transactional);
      if r in was {
        i, a, b, k := RowIsOfAnOrder(before, r, limit, transactional);
        assert before[..i] == actions[..i];
        StaysOfAnOrder(was, now, l, last, actions[i].call,
                       NextState(LedgerOf(actions[..i]).states, actions[i].call), a, b, k, a1, b1, k1);
      } else {
        i, a, b, k := n, a1, b1, k1;
        TableAscends(actions, limit, transactional);
        NewRowsOfOrder(was, now, l, last, a, b, k);
      }
    }
  }

  lemma EarlierRowIsEarlier(actions: seq<Action>, p: nat, a: Sent, limit: int, transactional: bool) returns (x: nat)
    requires p < |OutboxOf(actions, limit, transactional).log| && a in Table(actions, limit, transactional)
    requires a.id < OutboxOf(actions, limit, transactional).log[p].id
    ensures x < p && OutboxOf(actions, limit, transactional).log[x] == a
  {
    NothingOvertakes(OutboxEvents(actions), limit, transactional);
    var log := OutboxOf(actions, limit, transactional).log;
    assert a in log[..p];
    x :| 0 <= x < p && log[..p][x] == a;
  }

  lemma CommittedIsOfAnOrder(actions: seq<Action>, p: nat, limit: int, transactional: bool)
    returns (i: nat, a: Sent, b: Sent, k: Sent)
    requires p < |OutboxOf(actions, limit, transactional).log|
    ensures IsOrder(actions, i)
    ensures RowsOfOrder(Table(actions, limit, transactional), actions[i].call,
                        NextState(LedgerOf(actions[..i]).states, actions[i].call), a, b, k)
    ensures OutboxOf(actions, limit, transactional).log[p] in {a, b, k}
  {
    RunsAreSound(Initial<Payload>(), OutboxEvents(actions), limit, transactional);
    var r := OutboxOf(actions, limit, transactional).log[p];
    assert r in OutboxOf(actions, limit, transactional).log;
    i, a, b, k := RowIsOfAnOrder(actions, r, limit, transactional);
  }

  /** In every run, whatever failed and however often the process was restarted: a payment on its topic is the
      payment of a committed order, and that order stands before it in the log, under the same key. */
  lemma PaymentFollowsItsOrder(actions: seq<Action>, p: nat, limit: int, transactional: bool) returns (i: nat, x: nat)
    requires var log := OutboxOf(actions, limit, transactional).log;
             p < |log| && log[p].topic == "payments.completed"
    ensures IsOrder(actions, i)
    ensures var log, c := OutboxOf(actions, limit, transactional).log, actions[i].call;
            && x < p && log[x].topic == "orders.created"
            && log[x].key == log[p].key == Some(c.order.orderId)
            && log[x].payload == Order(c.order) && log[p].payload == Payment(c.payment)
  {
    var a, b, k;
    i, a, b, k := CommittedIsOfAnOrder(actions, p, limit, transactional);
    assert |TOPIC_PAYMENT_COMPLETED| != |TOPIC_ORDER_CREATED| && |TOPIC_PAYMENT_COMPLETED| != |CUSTOMER_TOPIC|;
    x := EarlierRowIsEarlier(actions, p, a, limit, transactional);
  }

  /** In every run: an update on the customer topic is that of a committed order, and the order and its payment
      stand before it in the log. */
  lemma UpdateFollowsItsOrder(actions: seq<Action>, p: nat, limit: int, transactional: bool)
    returns (i: nat, x: nat, y: nat)
    requires var log := OutboxOf(actions, limit, transactional).log;
             p < |log| && log[p].topic == "customers"
    ensures IsOrder(actions, i)
    ensures var log, c := OutboxOf(actions, limit, transactional).log, actions[i].call;
            && x < p && y < p && log[p].key == Some(c.order.customerId)
            && log[p].payload == Customer(Update(LedgerOf(actions[..i]), c))
            && log[x].topic == "orders.created" && log[x].payload == Order(c.order)
            && log[y].topic == "payments.completed" && log[y].payload == Payment(c.payment)
  {
    var a, b, k;
    i, a, b, k := CommittedIsOfAnOrder(actions, p, limit, transactional);
    assert |CUSTOMER_TOPIC| != |TOPIC_ORDER_CREATED| && |CUSTOMER_TOPIC| != |TOPIC_PAYMENT_COMPLETED|;
    x := EarlierRowIsEarlier(actions, p, a, limit, transactional);
    y := EarlierRowIsEarlier(actions, p, b, limit, transactional);
  }
}
