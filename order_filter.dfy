/**
 Selecting orders: the status filter of the order table
 (`orders.filter(o => filter === "all" ? true : o.status === filter)`) and the
 local removal of a deleted order (`orders.filter(o => o._id !== orderId)`).
 */
module OrderFilter {
  import opened Records
  import opened Sequences

  /** The four filter buttons above the order table. */
  datatype StatusFilter = All | Pending | Dispatch | Success

  /** The string each filter button stands for. */
  function Name(f: StatusFilter): string
  {
    match f
    case All => "all"
    case Pending => "pending"
    case Dispatch => "dispatch"
    case Success => "success"
  }

  /** Orders whose status is exactly `st`; a null status never is. */
  function StatusIs(st: string): (matches: Order -> bool)
    ensures forall o: Order :: matches(o) <==> o.status == Some(st)
    ensures forall o: Order :: o.status == None ==> !matches(o)
  {
    (o: Order) => o.status == Some(st)
  }

  /** The predicate the order table filters with. */
  function Selects(f: StatusFilter): (shown: Order -> bool)
    ensures f == All ==> forall o: Order :: shown(o)
    ensures f != All ==> forall o: Order :: shown(o) <==> o.status == Some(Name(f))
  {
    (o: Order) => if Name(f) == "all" then true else o.status == Some(Name(f))
  }

  /** The orders the table shows under filter `f`. */
  function FilteredOrders(orders: seq<Order>, f: StatusFilter): (r: seq<Order>)
    ensures |r| <= |orders|
  {
    Filter(orders, Selects(f))
  }

  /** Two predicates that agree on every element select the same elements. */
  lemma {:induction false} FilterAgreeing(s: seq<Order>, p: Order -> bool, q: Order -> bool)
    requires forall i :: 0 <= i < |s| ==> p(s[i]) == q(s[i])
    ensures Filter(s, p) == Filter(s, q)
    decreases |s|
  {
    if s != [] {
      FilterAgreeing(s[1..], p, q);
    }
  }

  /** "all" shows every order, in order. */
  lemma FilterAllIsIdentity(orders: seq<Order>)
    ensures FilteredOrders(orders, All) == orders
  {
    FilterKeepsAll(orders, Selects(All));
  }

  /** Any other filter shows the orders with exactly that status. */
  lemma {:induction false} FilterIsStatusMatch(orders: seq<Order>, f: StatusFilter)
    requires f != All
    ensures FilteredOrders(orders, f) == Filter(orders, StatusIs(Name(f)))
  {
    FilterAgreeing(orders, Selects(f), StatusIs(Name(f)));
  }

  /**
   Any filter but "all" yields a subsequence of the orders (original relative
   order) holding each order with the selected status exactly as often as the
   input does, and nothing else: a null-status order never shows.
   */
  lemma FilterSelectsExactly(orders: seq<Order>, f: StatusFilter)
    requires f != All
    ensures IsSubsequence(FilteredOrders(orders, f), orders)
    ensures forall o :: multiset(FilteredOrders(orders, f))[o] ==
                        if o.status == Some(Name(f)) then multiset(orders)[o] else 0
    ensures forall o :: o in FilteredOrders(orders, f) <==> o in orders && o.status == Some(Name(f))
  {
    FilterIsSubsequence(orders, Selects(f));
    FilterCounts(orders, Selects(f));
  }

  /** The properties of FilterSelectsExactly determine the filtered table. */
  lemma FilteredOrdersUnique(orders: seq<Order>, f: StatusFilter, r: seq<Order>)
    requires f != All
    requires IsSubsequence(r, orders)
    requires forall o :: multiset(r)[o] == if o.status == Some(Name(f)) then multiset(orders)[o] else 0
    ensures r == FilteredOrders(orders, f)
  {
    FilterUnique(orders, Selects(f), r);
  }

  /** Orders whose id is not `id`. */
  function IdIsNot(id: string): (kept: Order -> bool)
    ensures forall o: Order :: kept(o) <==> o.id != id
  {
    (o: Order) => o.id != id
  }

  /** The order list after `id` was deleted from the store. */
  function RemoveOrder(orders: seq<Order>, id: string): (r: seq<Order>)
    ensures |r| <= |orders|
  {
    Filter(orders, IdIsNot(id))
  }

  /**
   After removal no order has the id; every other order stays, as often as
   before and in the same relative order.
   */
  lemma RemoveOrderExactly(orders: seq<Order>, id: string)
    ensures forall o :: o in RemoveOrder(orders, id) ==> o.id != id
    ensures IsSubsequence(RemoveOrder(orders, id), orders)
    ensures forall o: Order :: o.id != id ==> multiset(RemoveOrder(orders, id))[o] == multiset(orders)[o]
  {
    FilterCounts(orders, IdIsNot(id));
    FilterIsSubsequence(orders, IdIsNot(id));
  }

  /** The list shrinks exactly when some order had the id. */
  lemma RemoveOrderShrinks(orders: seq<Order>, id: string)
    ensures |RemoveOrder(orders, id)| < |orders| <==> exists i :: 0 <= i < |orders| && orders[i].id == id
  {
    var r := RemoveOrder(orders, id);
    if i :| 0 <= i < |orders| && orders[i].id == id {
      FilterCounts(orders, IdIsNot(id));
      var before, after := multiset(orders), multiset(r);
      assert after <= before;
      assert orders[i] in before && after[orders[i]] == 0;
      assert before == after + (before - after);
      assert |before - after| > 0;
    } else {
      FilterKeepsAll(orders, IdIsNot(id));
    }
  }

  /** Removing the same id twice is removing it once. */
  lemma RemoveOrderIdempotent(orders: seq<Order>, id: string)
    ensures RemoveOrder(RemoveOrder(orders, id), id) == RemoveOrder(orders, id)
  {
    var r := RemoveOrder(orders, id);
    FilterCounts(orders, IdIsNot(id));
    assert forall i :: 0 <= i < |r| ==> r[i] in r;
    FilterKeepsAll(r, IdIsNot(id));
  }
}
