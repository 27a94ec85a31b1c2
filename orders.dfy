/**
 * The order history kept in local storage under the key 'boxpaper_orders'
 * (src/lib/orders.ts). Every operation reads the whole list leniently,
 * transforms it, and writes the whole list back.
 */
module Orders {
  import opened Wrappers
  import opened Storage
  import opened Seqs
  import opened PaymentMethods

  datatype OrderItem = OrderItem(id: int, name: string, price: int, quantity: int, image: string)

  datatype Status = Pending | Confirmed | Delivered | Cancelled

  datatype DeliveryAddress = DeliveryAddress(fullName: string, address: string, city: string, phone: string)

  datatype Order = Order(
    orderId: string,
    date: string,
    items: seq<OrderItem>,
    totalAmount: int,
    status: Status,
    paymentMethod: PaymentMethod,
    deliveryAddress: DeliveryAddress)

  /** What `getOrders` makes of the stored record: a missing or unparseable record reads as no orders. */
  function ReadOrders(c: Cell<seq<Order>>): (orders: seq<Order>)
    ensures c.Parsed? ==> orders == c.value
    ensures !c.Parsed? ==> orders == []
  {
    c.Get().GetOr([])
  }

  /** The list `deleteOrder(id)` writes back: every order whose id differs, in order. */
  function Deleted(orders: seq<Order>, id: string): (r: seq<Order>)
    ensures forall i :: 0 <= i < |r| ==> r[i] in orders && r[i].orderId != id
    ensures forall i :: 0 <= i < |orders| && orders[i].orderId != id ==> orders[i] in r
  {
    Filter(orders, (o: Order) => o.orderId != id)
  }

  /** The list `updateOrderStatus(id, s)` writes back. */
  function StatusUpdated(orders: seq<Order>, id: string, s: Status): (r: seq<Order>)
    ensures |r| == |orders|
    ensures forall i :: 0 <= i < |orders| ==>
      r[i].status == (if orders[i].orderId == id then s else orders[i].status)
    ensures forall i :: 0 <= i < |orders| ==> r[i].(status := orders[i].status) == orders[i]
  {
    Map(orders, (o: Order) => if o.orderId == id then o.(status := s) else o)
  }

  /** Deleting keeps the relative order of what remains: it distributes over concatenation. */
  lemma DeletedConcat(a: seq<Order>, b: seq<Order>, id: string)
    ensures Deleted(a + b, id) == Deleted(a, id) + Deleted(b, id)
  {
    FilterConcat(a, b, (o: Order) => o.orderId != id);
  }

  /** Deleting an id that no order carries leaves the list as it is. */
  lemma DeletedAbsent(orders: seq<Order>, id: string)
    requires forall i :: 0 <= i < |orders| ==> orders[i].orderId != id
    ensures Deleted(orders, id) == orders
  {
    FilterKeepsAll(orders, (o: Order) => o.orderId != id);
  }

  /** Deleting the same id twice is deleting it once. */
  lemma DeletedIdempotent(orders: seq<Order>, id: string)
    ensures Deleted(Deleted(orders, id), id) == Deleted(orders, id)
  {
    FilterIdempotent(orders, (o: Order) => o.orderId != id);
  }

  /** Deleting the order just saved undoes the save, as far as that id goes. */
  lemma DeletedAfterSave(o: Order, orders: seq<Order>)
    ensures Deleted([o] + orders, o.orderId) == Deleted(orders, o.orderId)
  {
    FilterCons(o, orders, (x: Order) => x.orderId != o.orderId);
  }

  /** Updating the status of an id that no order carries changes nothing. */
  lemma StatusUpdatedAbsent(orders: seq<Order>, id: string, s: Status)
    requires forall i :: 0 <= i < |orders| ==> orders[i].orderId != id
    ensures StatusUpdated(orders, id, s) == orders
  {
  }

  /** The second of two status updates of the same id wins. */
  lemma StatusUpdatedTwice(orders: seq<Order>, id: string, s: Status, t: Status)
    ensures StatusUpdated(StatusUpdated(orders, id, s), id, t) == StatusUpdated(orders, id, t)
  {
  }

  /** A status update is invisible once the order is deleted. */
  lemma {:induction false} DeletedAfterStatusUpdate(orders: seq<Order>, id: string, s: Status)
    ensures Deleted(StatusUpdated(orders, id, s), id) == Deleted(orders, id)
  {
    if orders != [] {
      var keep := (o: Order) => o.orderId != id;
      var rest := orders[1..];
      var u, ur := StatusUpdated(orders, id, s), StatusUpdated(rest, id, s);
      assert orders == [orders[0]] + rest;
      assert u == [u[0]] + ur;
      assert u[0].orderId == orders[0].orderId;
      assert keep(u[0]) ==> u[0] == orders[0];
      FilterCons(orders[0], rest, keep);
      FilterCons(u[0], ur, keep);
      DeletedAfterStatusUpdate(rest, id, s);
      assert Deleted(ur, id) == Deleted(rest, id);
    }
  }

  /** The `boxpaper_orders` storage key and the operations of src/lib/orders.ts over it. */
  class OrderStore {
    var cell: Cell<seq<Order>>

    constructor (initial: Cell<seq<Order>>)
      ensures cell == initial
    {
      cell := initial;
    }

    /** The list the store currently denotes. */
    function Orders(): seq<Order>
      reads this
    {
      ReadOrders(cell)
    }

    method GetOrders() returns (orders: seq<Order>)
      ensures orders == ReadOrders(cell)
    {
      match cell
      case Parsed(list) => orders := list;
      case _ => orders := [];
    }

    /** Puts `order` in front of the stored list; a record that did not parse is replaced by `[order]`. */
    method SaveOrder(order: Order)
      modifies this
      ensures cell == Parsed([order] + old(Orders()))
      ensures |Orders()| == |old(Orders())| + 1 && Orders()[0] == order
      ensures !old(cell).Parsed? ==> Orders() == [order]
    {
      var orders := GetOrders();
      orders := [order] + orders;
      cell := Parsed(orders);
    }

    method DeleteOrder(orderId: string)
      modifies this
      ensures cell == Parsed(Deleted(old(Orders()), orderId))
    {
      var orders := GetOrders();
      var filtered := Filter(orders, (o: Order) => o.orderId != orderId);
      cell := Parsed(filtered);
    }

    method UpdateOrderStatus(orderId: string, status: Status)
      modifies this
      ensures cell == Parsed(StatusUpdated(old(Orders()), orderId, status))
    {
      var orders := GetOrders();
      var updated := Map(orders, (o: Order) => if o.orderId == orderId then o.(status := status) else o);
      cell := Parsed(updated);
    }
  }
}
