/**
 The summary metrics of the dashboard, recomputed from scratch from the
 order list: revenue, order count, distinct customer emails and orders
 still pending delivery.
 */
module OrderMetrics {
  import opened Records
  import opened Sequences
  import opened OrderFilter

  /** `orders.reduce((sum, order) => sum + order.total, acc)`: a left fold. */
  function SumTotals(acc: int, orders: seq<Order>): (sum: int)
    ensures orders == [] ==> sum == acc
    ensures (forall i :: 0 <= i < |orders| ==> orders[i].total >= 0) ==> sum >= acc
    decreases |orders|
  {
    if orders == [] then acc else SumTotals(acc + orders[0].total, orders[1..])
  }

  /** The revenue of a list of orders: the fold started at 0. */
  function Revenue(orders: seq<Order>): (revenue: int)
    ensures orders == [] ==> revenue == 0
    ensures |orders| == 1 ==> revenue == orders[0].total
    ensures (forall i :: 0 <= i < |orders| ==> orders[i].total >= 0) ==> revenue >= 0
  {
    SumTotals(0, orders)
  }

  /** `new Set(orders.map(order => order.email))`: exact string equality, no normalisation. */
  function Emails(orders: seq<Order>): (emails: set<string>)
    ensures forall i :: 0 <= i < |orders| ==> orders[i].email in emails
    ensures forall e :: e in emails ==> exists i :: 0 <= i < |orders| && orders[i].email == e
  {
    set i | 0 <= i < |orders| :: orders[i].email
  }

  /** No two orders share an email. */
  predicate DistinctEmails(orders: seq<Order>)
  {
    forall i, j :: 0 <= i < j < |orders| ==> orders[i].email != orders[j].email
  }

  /** The metrics of an order list. */
  function CalculateMetrics(orders: seq<Order>): (m: Metrics)
    ensures m.totalOrders == |orders|
    ensures m.totalCustomers <= m.totalOrders && m.pendingDeliveries <= m.totalOrders
    ensures m.totalCustomers == 0 <==> orders == []
  {
    CustomersAtMostOrders(orders);
    Metrics(Revenue(orders), |orders|, |Emails(orders)|, |Filter(orders, StatusIs("pending"))|)
  }

  /** The fold's accumulator only shifts the result. */
  lemma {:induction false} SumTotalsShift(acc: int, orders: seq<Order>)
    ensures SumTotals(acc, orders) == acc + SumTotals(0, orders)
    decreases |orders|
  {
    if orders != [] {
      SumTotalsShift(acc + orders[0].total, orders[1..]);
      SumTotalsShift(orders[0].total, orders[1..]);
    }
  }

  /** Revenue is additive: the revenue of two lists is the sum of their revenues. */
  lemma {:induction false} RevenueAppend(a: seq<Order>, b: seq<Order>)
    ensures Revenue(a + b) == Revenue(a) + Revenue(b)
    decreases |a|
  {
    if a == [] {
      assert a + b == b;
    } else {
      assert (a + b)[0] == a[0] && (a + b)[1..] == a[1..] + b;
      SumTotalsShift(a[0].total, a[1..] + b);
      SumTotalsShift(a[0].total, a[1..]);
      RevenueAppend(a[1..], b);
    }
  }

  /** One order contributes its total. */
  lemma RevenueSingle(o: Order)
    ensures Revenue([o]) == o.total
  {
    assert [o][1..] == [];
    assert SumTotals(0, [o]) == SumTotals(o.total, []);
  }

  /** Adding an order adds its email to the customers. */
  lemma EmailsAppend(orders: seq<Order>, o: Order)
    ensures Emails(orders + [o]) == Emails(orders) + {o.email}
  {
    var s := orders + [o];
    forall e | e in Emails(s) ensures e in Emails(orders) + {o.email} {
      var i :| 0 <= i < |s| && s[i].email == e;
      if i < |orders| {
        assert orders[i].email == e;
      }
    }
    assert s[|orders|].email == o.email;
    forall e | e in Emails(orders) ensures e in Emails(s) {
      var i :| 0 <= i < |orders| && orders[i].email == e;
      assert s[i].email == e;
    }
  }

  /** An appended order keeps the emails distinct iff they were and its email is new. */
  lemma DistinctEmailsAppend(t: seq<Order>, o: Order)
    ensures DistinctEmails(t + [o]) <==> DistinctEmails(t) && o.email !in Emails(t)
  {
    var s := t + [o];
    if o.email in Emails(t) {
      var k :| 0 <= k < |t| && t[k].email == o.email;
      assert s[k].email == s[|t|].email;
    } else if DistinctEmails(t) {
      forall i, j | 0 <= i < j < |s| ensures s[i].email != s[j].email {
        if j == |t| {
          assert s[i].email == t[i].email;
        } else {
          assert s[i] == t[i] && s[j] == t[j];
        }
      }
    } else {
      var i, j :| 0 <= i < j < |t| && t[i].email == t[j].email;
      assert s[i].email == s[j].email;
    }
  }

  /**
   Customers never outnumber orders, and they are as many as the orders
   exactly when no email repeats: a repeated email counts once.
   */
  lemma {:induction false} CustomersAtMostOrders(orders: seq<Order>)
    ensures |Emails(orders)| <= |orders|
    ensures |Emails(orders)| == |orders| <==> DistinctEmails(orders)
    ensures |Emails(orders)| == 0 <==> orders == []
    decreases |orders|
  {
    if orders == [] {
      assert Emails(orders) == {};
    } else {
      var n := |orders| - 1;
      var t, o := orders[..n], orders[n];
      assert orders == t + [o];
      CustomersAtMostOrders(t);
      EmailsAppend(t, o);
      DistinctEmailsAppend(t, o);
      assert o.email in Emails(orders);
    }
  }

  /** The empty list has all-zero metrics. */
  lemma MetricsOfEmpty()
    ensures CalculateMetrics([]) == ZeroMetrics
  {
  }

  /**
   The pending deliveries are exactly the positions whose status is the
   string "pending"; they are what the "pending" filter shows.
   */
  lemma PendingCountsPending(orders: seq<Order>)
    ensures CalculateMetrics(orders).pendingDeliveries ==
            |set i: nat | i < |orders| && orders[i].status == Some("pending")|
    ensures CalculateMetrics(orders).pendingDeliveries == |FilteredOrders(orders, Pending)|
  {
    FilterLengthCounts(orders, StatusIs("pending"));
    assert Positions(orders, StatusIs("pending")) ==
           set i: nat | i < |orders| && orders[i].status == Some("pending");
    FilterIsStatusMatch(orders, Pending);
  }

  /** Metrics are recomputed from scratch; an appended order updates each of them as expected. */
  lemma MetricsAppend(orders: seq<Order>, o: Order)
    ensures var before, after := CalculateMetrics(orders), CalculateMetrics(orders + [o]);
      && after.totalRevenue == before.totalRevenue + o.total
      && after.totalOrders == before.totalOrders + 1
      && after.totalCustomers == before.totalCustomers + (if o.email in Emails(orders) then 0 else 1)
      && after.pendingDeliveries == before.pendingDeliveries + (if o.status == Some("pending") then 1 else 0)
  {
    RevenueAppend(orders, [o]);
    RevenueSingle(o);
    EmailsAppend(orders, o);
    FilterAppend(orders, [o], StatusIs("pending"));
    assert [o][1..] == [];
  }

  /** An order with only the fields the metrics and the filter read. */
  function SampleOrder(id: string, email: string, total: int, status: Option<string>): Order
  {
    Order(id, "", "", "", email, "", "", "", total, 0, "", status, [])
  }

  /** Three orders, two sharing an email, two pending. */
  lemma MetricsExample()
    ensures var a := SampleOrder("1", "a@x.com", 100, Some("pending"));
      var b := SampleOrder("2", "a@x.com", 50, Some("success"));
      var c := SampleOrder("3", "b@x.com", 25, Some("pending"));
      && CalculateMetrics([a, b, c]) == Metrics(175, 3, 2, 2)
      && FilteredOrders([a, b, c], Pending) == [a, c]
  {
    var a := SampleOrder("1", "a@x.com", 100, Some("pending"));
    var b := SampleOrder("2", "a@x.com", 50, Some("success"));
    var c := SampleOrder("3", "b@x.com", 25, Some("pending"));
    var s := [a, b, c];
    assert Emails(s) == {"a@x.com", "b@x.com"} by {
      assert s[0].email == "a@x.com" && s[2].email == "b@x.com";
    }
    assert "a@x.com" != "b@x.com" by { assert "a@x.com"[0] != "b@x.com"[0]; }
    assert s[1..] == [b, c] && s[1..][1..] == [c] && s[1..][1..][1..] == [];
    assert "success" != "pending" by { assert "success"[0] != "pending"[0]; }
  }
}
