/** `OrderViewSet`: the per-user order listing and the order-creation pipeline. */
module EcommerceViews {
  import opened Wrappers
  import opened EcommerceModels
  import opened EcommerceSerializers

  /**
   * `OrderViewSet.get_queryset`: the orders whose buyer is the requesting
   * user, in table order.
   */
  function OrdersOf(orders: seq<Order>, user: UserId): (r: seq<Order>)
    ensures |r| <= |orders|
    ensures forall k :: 0 <= k < |r| ==> r[k].user == user
  {
    if |orders| == 0 then []
    else
      (if orders[0].user == user then [orders[0]] else []) + OrdersOf(orders[1..], user)
  }

  /** The listing holds each of the user's orders exactly as often as the table does, and no other order. */
  lemma {:induction false} OrdersOfExact(orders: seq<Order>, user: UserId)
    ensures forall o :: multiset(OrdersOf(orders, user))[o] == if o.user == user then multiset(orders)[o] else 0
  {
    if |orders| > 0 {
      OrdersOfExact(orders[1..], user);
      assert orders == [orders[0]] + orders[1..];
    }
  }

  /** A new order shows up at the end of its buyer's listing and nowhere else. */
  lemma {:induction false} OrdersOfAppend(orders: seq<Order>, o: Order, user: UserId)
    ensures OrdersOf(orders + [o], user) == OrdersOf(orders, user) + (if o.user == user then [o] else [])
  {
    if |orders| > 0 {
      assert (orders + [o])[1..] == orders[1..] + [o];
      OrdersOfAppend(orders[1..], o, user);
    } else {
      assert orders + [o] == [o];
    }
  }

  /** The JSON body of an order request: the item's primary key and the quantity. */
  datatype OrderBody = OrderBody(item: ItemId, quantity: nat)

  /** What `OrderViewSet.create` answers. */
  datatype CreateResponse =
    | Created(order: Order)                  // 200 with the serialized order
    | Rejected(status: nat, message: string) // an error status and its message
    | ErrorStatus(status: nat)               // an error status whose detail the framework writes

  /**
   * A body that is not JSON: the parser raises its own parse error, which the
   * framework answers with 400 and its own detail text (the view's
   * `except JSONDecodeError` branch is never reached, so its message is not sent).
   */
  const MalformedBody: CreateResponse := ErrorStatus(400)

  /** `get_object_or_404` raises `Http404`; the framework answers 404 with its own detail text. */
  const ItemNotFound: CreateResponse := ErrorStatus(404)

  /**
   * `OrderViewSet.create` on the catalog's value. `body` is `None` when the
   * request body is not valid JSON. The item is looked up (404), the
   * serializer validates the stock (400), and `place_order` runs.
   */
  function CreateSpec(c: Catalog, body: Option<OrderBody>, user: UserId): (Catalog, CreateResponse)
  {
    match body
    case None => (c, MalformedBody)
    case Some(b) =>
      if b.item !in c.stock then (c, ItemNotFound)
      else match Validate(c, OrderData(b.item, b.quantity))
        case Failure(e) => (c, Rejected(e.status, e.detail))
        case Success(_) =>
          var (c', o) := PlaceOrderSpec(c, b.item, user, b.quantity);
          (c', Created(o.value))
  }

  /** A body that is not JSON is answered 400 before any lookup, and nothing changes. */
  lemma CreateMalformedBody(c: Catalog, user: UserId)
    ensures CreateSpec(c, None, user) == (c, ErrorStatus(400))
  {
  }

  /** An unknown item is answered 404 before any validation, and nothing changes. */
  lemma CreateUnknownItem(c: Catalog, b: OrderBody, user: UserId)
    requires b.item !in c.stock
    ensures CreateSpec(c, Some(b), user) == (c, ErrorStatus(404))
  {
  }

  /** A quantity above the stock is answered 400 with the stock error, and no order is created. */
  lemma CreateOverStock(c: Catalog, b: OrderBody, user: UserId)
    requires b.item in c.stock && b.quantity > c.stock[b.item]
    ensures CreateSpec(c, Some(b), user) == (c, Rejected(400, "There is not enough stock"))
  {
  }

  /**
   * A quantity up to the stock, the whole stock included, places the order for
   * the requesting user and answers with it; the user's listing gains exactly it.
   */
  lemma CreateWithinStock(c: Catalog, b: OrderBody, user: UserId)
    requires b.item in c.stock && b.quantity <= c.stock[b.item]
    ensures var (c', resp) := CreateSpec(c, Some(b), user);
      && resp == Created(Order(b.item, user, b.quantity, Pending))
      && c' == PlaceOrderSpec(c, b.item, user, b.quantity).0
      && c'.stock[b.item] == c.stock[b.item] - b.quantity
      && OrdersOf(c'.orders, user) == OrdersOf(c.orders, user) + [resp.order]
  {
    OrdersOfAppend(c.orders, Order(b.item, user, b.quantity, Pending), user);
  }

  /** Whatever the request, the item set is kept and stock plus ordered units is conserved for every item. */
  lemma CreateConservesUnits(c: Catalog, body: Option<OrderBody>, user: UserId, i: ItemId)
    requires i in c.stock
    ensures var c' := CreateSpec(c, body, user).0;
      c'.stock.Keys == c.stock.Keys && c'.stock[i] + OrderedUnits(c'.orders, i) == c.stock[i] + OrderedUnits(c.orders, i)
  {
    if body.Some? && body.value.item in c.stock {
      PlaceOrderConservesUnits(c, body.value.item, user, body.value.quantity, i);
    }
  }

  /** `OrderViewSet.create` against the shop's tables. */
  method Create(shop: Shop, body: Option<OrderBody>, user: UserId) returns (resp: CreateResponse)
    modifies shop
    ensures (shop.State(), resp) == CreateSpec(old(shop.State()), body, user)
  {
    if body.None? {
      return MalformedBody;
    }
    var b := body.value;
    if b.item !in shop.stock {
      return ItemNotFound;
    }
    var v := Validate(shop.State(), OrderData(b.item, b.quantity));
    if v.Failure? {
      return Rejected(v.error.status, v.error.detail);
    }
    var order := shop.PlaceOrder(b.item, user, b.quantity);
    resp := Created(order.value);
  }
}
