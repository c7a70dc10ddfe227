/**
 * The stock and order models of `ecommerce`: an item's stock counter, the
 * stock guard, order placement, and the order status machine.
 */
module EcommerceModels {
  import opened Wrappers
  import CustomUserModels

  type ItemId = nat
  type UserId = CustomUserModels.UserId

  /** `Order.OrderStatus`: the seven text choices of the `status` column. */
  datatype OrderStatus = Pending | Confirmed | Shipped | Delivered | Cancelled | Returned | Refunded

  /** The value each choice stores in the `status` column. */
  function StatusValue(s: OrderStatus): string
  {
    match s
    case Pending => "pending"
    case Confirmed => "confirmed"
    case Shipped => "shipped"
    case Delivered => "delivered"
    case Cancelled => "cancelled"
    case Returned => "returned"
    case Refunded => "refunded"
  }

  /** Reads a stored `status` column back; `None` for a value outside the choices. */
  function ParseStatus(v: string): (r: Option<OrderStatus>)
    ensures r.Some? ==> StatusValue(r.value) == v
  {
    if v == "pending" then Some(Pending)
    else if v == "confirmed" then Some(Confirmed)
    else if v == "shipped" then Some(Shipped)
    else if v == "delivered" then Some(Delivered)
    else if v == "cancelled" then Some(Cancelled)
    else if v == "returned" then Some(Returned)
    else if v == "refunded" then Some(Refunded)
    else None
  }

  /** Every status is stored as a value that reads back as the same status, so the seven values are distinct. */
  lemma StatusRoundTrip(s: OrderStatus)
    ensures ParseStatus(StatusValue(s)) == Some(s)
  {
  }

  /** The column default of `status`. */
  const DefaultStatus: OrderStatus := Pending

  /** An `Order` row: the item ordered (through `OrderItem`), the buyer, the quantity and the status. */
  datatype Order = Order(item: ItemId, user: UserId, quantity: nat, status: OrderStatus)

  /** The row `Order.objects.create(item=..., quantity=..., user=...)` inserts. */
  function NewOrder(item: ItemId, user: UserId, qty: nat): Order
  {
    Order(item, user, qty, DefaultStatus)
  }

  /** `Order.mark_as_delivered` on the row's value. */
  function MarkedDelivered(o: Order): Order
  {
    if o.status != Delivered then o.(status := Delivered) else o
  }

  lemma MarkAsDeliveredIdempotent(o: Order)
    ensures MarkedDelivered(o).status == Delivered
    ensures MarkedDelivered(o) == o.(status := Delivered)
    ensures MarkedDelivered(MarkedDelivered(o)) == MarkedDelivered(o)
  {
  }

  /** `Item.check_stock`: the order quantity does not exceed the stock. */
  predicate CheckStock(stock: nat, qty: nat)
  {
    qty <= stock
  }

  /** `check_stock` at the three boundaries the item tests probe. */
  lemma CheckStockBoundaries(stock: nat)
    ensures stock >= 1 ==> CheckStock(stock, stock - 1)
    ensures CheckStock(stock, stock)
    ensures !CheckStock(stock, stock + 1)
  {
  }

  /** The units of `item` held by the orders in `orders`. */
  function OrderedUnits(orders: seq<Order>, item: ItemId): nat
  {
    if |orders| == 0 then 0
    else OrderedUnits(orders[..|orders| - 1], item)
         + (if orders[|orders| - 1].item == item then orders[|orders| - 1].quantity else 0)
  }

  /** Replacing one order by one with the same item and quantity keeps every item's ordered units. */
  lemma {:induction false} OrderedUnitsUpdate(orders: seq<Order>, k: nat, o: Order, item: ItemId)
    requires k < |orders|
    requires o.item == orders[k].item && o.quantity == orders[k].quantity
    ensures OrderedUnits(orders[k := o], item) == OrderedUnits(orders, item)
  {
    var n := |orders|;
    if k < n - 1 {
      assert orders[k := o][..n - 1] == orders[..n - 1][k := o];
      OrderedUnitsUpdate(orders[..n - 1], k, o, item);
    } else {
      assert orders[k := o][..n - 1] == orders[..n - 1];
    }
  }

  /** The catalog's stored state: each item's stock and the order table. */
  datatype Catalog = Catalog(stock: map<ItemId, nat>, orders: seq<Order>)

  /** `Item.place_order` on the catalog's value: the new state and the order it returns. */
  function PlaceOrderSpec(c: Catalog, item: ItemId, user: UserId, qty: nat): (Catalog, Option<Order>)
    requires item in c.stock
  {
    if CheckStock(c.stock[item], qty) then
      var o := NewOrder(item, user, qty);
      (Catalog(c.stock[item := c.stock[item] - qty], c.orders + [o]), Some(o))
    else
      (c, None)
  }

  /** A successful placement creates exactly one pending order and lowers that item's stock by exactly `qty`. */
  lemma PlaceOrderWithinStock(c: Catalog, item: ItemId, user: UserId, qty: nat)
    requires item in c.stock && qty <= c.stock[item]
    ensures var (c', r) := PlaceOrderSpec(c, item, user, qty);
      && r == Some(Order(item, user, qty, Pending))
      && c'.orders == c.orders + [r.value]
      && c'.stock.Keys == c.stock.Keys
      && c'.stock[item] == c.stock[item] - qty
      && forall i :: i in c.stock && i != item ==> c'.stock[i] == c.stock[i]
  {
  }

  /** An over-stock request places nothing and leaves the catalog as it was. */
  lemma PlaceOrderOverStock(c: Catalog, item: ItemId, user: UserId, qty: nat)
    requires item in c.stock && qty > c.stock[item]
    ensures PlaceOrderSpec(c, item, user, qty) == (c, None)
  {
  }

  /** Stock plus the units already ordered is the same for every item before and after a placement. */
  lemma PlaceOrderConservesUnits(c: Catalog, item: ItemId, user: UserId, qty: nat, i: ItemId)
    requires item in c.stock && i in c.stock
    ensures var c' := PlaceOrderSpec(c, item, user, qty).0;
      i in c'.stock && c'.stock[i] + OrderedUnits(c'.orders, i) == c.stock[i] + OrderedUnits(c.orders, i)
  {
    var c' := PlaceOrderSpec(c, item, user, qty).0;
    if CheckStock(c.stock[item], qty) {
      assert c'.orders[..|c'.orders| - 1] == c.orders;
    }
  }

  /** The item stock and order tables, updated in place by the model methods. */
  class Shop {
    var stock: map<ItemId, nat>
    var orders: seq<Order>

    function State(): Catalog
      reads this
    {
      Catalog(stock, orders)
    }

    constructor (stock: map<ItemId, nat>)
      ensures this.stock == stock && orders == []
    {
      this.stock := stock;
      orders := [];
    }

    /** `Item.manage_stock`: the item's stock becomes its old stock minus `qty`; nothing else changes. */
    method ManageStock(item: ItemId, qty: nat)
      requires item in stock && qty <= stock[item]
      modifies this`stock
      ensures stock == old(stock)[item := old(stock[item]) - qty]
      ensures orders == old(orders)
    {
      var newStock := stock[item] - qty;
      stock := stock[item := newStock];
    }

    /**
     * `Item.place_order`: when the guard passes, the order row is created
     * first and then the stock is decremented; otherwise nothing happens.
     */
    method PlaceOrder(item: ItemId, user: UserId, qty: nat) returns (r: Option<Order>)
      requires item in stock
      modifies this
      ensures (State(), r) == PlaceOrderSpec(old(State()), item, user, qty)
      ensures r.Some? <==> qty <= old(stock[item])
      ensures r.Some? ==> orders == old(orders) + [r.value] && stock[item] == old(stock[item]) - qty
      ensures r.None? ==> orders == old(orders) && stock == old(stock)
    {
      if CheckStock(stock[item], qty) {
        var order := NewOrder(item, user, qty);
        orders := orders + [order];
        ManageStock(item, qty);
        r := Some(order);
      } else {
        r := None;
      }
    }

    /** `Order.mark_as_delivered` on order `k`; `wrote` says whether the row was saved. */
    method MarkAsDelivered(k: nat) returns (wrote: bool)
      requires k < |orders|
      modifies this`orders
      ensures orders == old(orders)[k := MarkedDelivered(old(orders[k]))]
      ensures orders[k].status == Delivered
      ensures wrote <==> old(orders[k].status) != Delivered
      ensures stock == old(stock)
      ensures forall i :: OrderedUnits(orders, i) == OrderedUnits(old(orders), i)
    {
      wrote := orders[k].status != Delivered;
      if wrote {
        orders := orders[k := orders[k].(status := Delivered)];
      }
      forall i ensures OrderedUnits(orders, i) == OrderedUnits(old(orders), i) {
        OrderedUnitsUpdate(old(orders), k, MarkedDelivered(old(orders[k])), i);
      }
    }
  }
}
