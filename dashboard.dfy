/** The dashboard's active orders: the status cycle the order buttons drive and the
    removal of completed orders. */
module Dashboard {
  import Seqs

  datatype OrderStatus = Pending | Preparing | Ready | Completed

  datatype OrderLine = OrderLine(name: string, price: real, quantity: int)

  datatype Order = Order(id: string, table: string, items: seq<OrderLine>, total: real, status: OrderStatus)

  /** preparing → ready, ready → completed, and pending or completed → preparing. */
  function NextStatus(s: OrderStatus): (r: OrderStatus)
    ensures r == Ready <==> s == Preparing
    ensures r == Completed <==> s == Ready
    ensures r == Preparing <==> (s == Pending || s == Completed)
  {
    match s
    case Preparing => Ready
    case Ready => Completed
    case Pending | Completed => Preparing
  }

  /** Advancing cycles through preparing, ready and completed; pending joins the cycle
      at preparing and is never reached again. */
  lemma StatusCycle(s: OrderStatus)
    ensures NextStatus(NextStatus(NextStatus(NextStatus(s)))) == NextStatus(s)
    ensures NextStatus(s) != Pending
    ensures NextStatus(s) == Completed <==> s == Ready
  {
  }

  /** A line's price × quantity. */
  function LineAmount(l: OrderLine): real {
    l.price * l.quantity as real
  }

  function IsOrder(id: string): Order -> bool {
    (o: Order) => o.id == id
  }

  function Advance(o: Order): Order
  {
    o.(status := NextStatus(o.status))
  }

  /** `handleOrderStatusUpdate`'s map. */
  function AdvanceById(orders: seq<Order>, id: string): (r: seq<Order>)
    ensures |r| == |orders|
    ensures forall i :: 0 <= i < |orders| ==>
      r[i] == if orders[i].id == id then orders[i].(status := NextStatus(orders[i].status)) else orders[i]
  {
    Seqs.MapWhere(orders, IsOrder(id), Advance)
  }

  /** `handleCompleteOrder`'s filter. */
  function RemoveById(orders: seq<Order>, id: string): (r: seq<Order>)
    ensures forall i :: 0 <= i < |r| ==> r[i] in orders && r[i].id != id
    ensures forall i :: 0 <= i < |orders| && orders[i].id != id ==> orders[i] in r
  {
    Seqs.Filter(orders, (o: Order) => o.id != id)
  }

  /** Completing keeps the other orders in their order. */
  lemma RemoveKeepsOrder(orders: seq<Order>, id: string, o: Order)
    ensures Seqs.IsSubsequence(RemoveById(orders, id), orders)
    ensures multiset(RemoveById(orders, id))[o] == if o.id == id then 0 else multiset(orders)[o]
  {
    Seqs.FilterIsSubsequence(orders, (x: Order) => x.id != id);
    Seqs.FilterMultiplicity(orders, (x: Order) => x.id != id, o);
  }

  /** An update for an id no order has leaves the list unchanged. */
  lemma AdvanceOfUnknownId(orders: seq<Order>, id: string)
    requires forall i :: 0 <= i < |orders| ==> orders[i].id != id
    ensures AdvanceById(orders, id) == orders
  {
    Seqs.MapWhereNoHit(orders, IsOrder(id), Advance);
  }

  predicate UniqueIds(orders: seq<Order>) {
    forall i, j :: 0 <= i < j < |orders| ==> orders[i].id != orders[j].id
  }

  /** What the order card's button does: complete a ready order, advance any other. */
  function PressResult(orders: seq<Order>, o: Order): (r: seq<Order>)
    ensures o.status == Ready ==> forall i :: 0 <= i < |r| ==> r[i].id != o.id && r[i] in orders
    ensures o.status == Ready ==> forall i :: 0 <= i < |orders| && orders[i].id != o.id ==> orders[i] in r
    ensures o.status != Ready ==> |r| == |orders| && forall i :: 0 <= i < |orders| ==>
      r[i].id == orders[i].id && (orders[i].id != o.id ==> r[i] == orders[i])
    ensures o.status != Ready ==> forall i :: 0 <= i < |orders| && orders[i].id == o.id ==>
      r[i] == orders[i].(status := NextStatus(orders[i].status))
  {
    if o.status == Ready then RemoveById(orders, o.id) else AdvanceById(orders, o.id)
  }

  /** With distinct ids, the button never turns an order into a completed one: every
      completed order after a press was already in the list. */
  lemma ButtonNeverCompletes(orders: seq<Order>, o: Order)
    requires UniqueIds(orders) && o in orders
    ensures forall i :: 0 <= i < |PressResult(orders, o)| ==>
      (PressResult(orders, o)[i].status == Completed ==> PressResult(orders, o)[i] in orders)
  {
  }

  function SeededOrders(): seq<Order> {
    [Order("001", "Table 5", [OrderLine("Butter Chicken", 320.0, 2), OrderLine("Naan", 80.0, 3)], 880.0, Preparing),
     Order("002", "Takeaway", [OrderLine("Biryani", 280.0, 1), OrderLine("Raita", 60.0, 1)], 340.0, Ready)]
  }

  /** Each seeded order's total is the sum of its lines. */
  lemma SeededTotals()
    ensures forall i :: 0 <= i < |SeededOrders()| ==> SeededOrders()[i].total == Seqs.SumOf(SeededOrders()[i].items, LineAmount)
    ensures UniqueIds(SeededOrders())
  {
    var s := SeededOrders();
    assert Seqs.SumOf(s[0].items[1..], LineAmount) == 240.0;
    assert Seqs.SumOf(s[1].items[1..], LineAmount) == 60.0;
  }

  class OrderBoard {
    var activeOrders: seq<Order>

    /** Orders are told apart by their ids. */
    ghost predicate Valid()
      reads this
    {
      UniqueIds(activeOrders)
    }

    constructor ()
      ensures activeOrders == SeededOrders() && Valid()
    {
      activeOrders := SeededOrders();
      SeededTotals();
    }

    /** `handleOrderStatusUpdate`: advance the status of the order with the id. */
    method HandleOrderStatusUpdate(orderId: string)
      requires Valid()
      modifies this
      ensures Valid()
      ensures activeOrders == AdvanceById(old(activeOrders), orderId)
    {
      activeOrders := AdvanceById(activeOrders, orderId);
    }

    /** `handleCompleteOrder`: drop the orders with the id. */
    method HandleCompleteOrder(orderId: string)
      requires Valid()
      modifies this
      ensures Valid()
      ensures activeOrders == RemoveById(old(activeOrders), orderId)
    {
      var before := activeOrders;
      activeOrders := RemoveById(activeOrders, orderId);
      RemovePreservesUnique(before, orderId);
    }

    /** The order card's button for `order`. */
    method PressOrderButton(order: Order)
      requires Valid()
      modifies this
      ensures Valid()
      ensures activeOrders == PressResult(old(activeOrders), order)
    {
      if order.status == Ready {
        HandleCompleteOrder(order.id);
      } else {
        HandleOrderStatusUpdate(order.id);
      }
    }
  }

  /** Completing an order keeps the ids distinct. */
  lemma {:induction false} RemovePreservesUnique(orders: seq<Order>, id: string)
    requires UniqueIds(orders)
    ensures UniqueIds(RemoveById(orders, id))
  {
    if orders != [] {
      var tail := orders[1..];
      assert UniqueIds(tail) by {
        forall i, j | 0 <= i < j < |tail| ensures tail[i].id != tail[j].id {
          assert tail[i] == orders[i + 1] && tail[j] == orders[j + 1];
        }
      }
      RemovePreservesUnique(tail, id);
      var rest := RemoveById(tail, id);
      assert RemoveById(orders, id) == (if orders[0].id != id then [orders[0]] else []) + rest;
      forall k | 0 <= k < |rest| ensures rest[k].id != orders[0].id {
        var m :| 0 <= m < |tail| && tail[m] == rest[k];
        assert orders[m + 1] == rest[k];
      }
    }
  }
}
