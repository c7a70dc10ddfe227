/** The order serializer's stock gate and the exception it raises. */
module EcommerceSerializers {
  import opened Wrappers
  import opened EcommerceModels

  /** An `APIException` as the client sees it: HTTP status, detail text and code. */
  datatype ApiError = ApiError(status: nat, detail: string, code: string)

  /** `NotEnoughStockException`. */
  const NotEnoughStock: ApiError := ApiError(400, "There is not enough stock", "invalid")

  /** The validated fields of `OrderSerializer`: the item (already resolved to an existing row) and the quantity. */
  datatype OrderData = OrderData(item: ItemId, quantity: nat)

  /**
   * `OrderSerializer.validate`: the item's stock guard, a second time. It only
   * reads the catalog, so it cannot change stock or orders.
   */
  function Validate(c: Catalog, res: OrderData): (r: Result<OrderData, ApiError>)
    requires res.item in c.stock
    ensures r.Failure? <==> res.quantity > c.stock[res.item]
    ensures r.Success? ==> r.value == res
    ensures r.Failure? ==> r.error.status == 400 && r.error == NotEnoughStock
  {
    if !CheckStock(c.stock[res.item], res.quantity) then Failure(NotEnoughStock) else Success(res)
  }

  /** The serializer gate and `place_order`'s own guard agree: validation passes exactly when placement creates an order. */
  lemma ValidateAgreesWithPlaceOrder(c: Catalog, res: OrderData, user: UserId)
    requires res.item in c.stock
    ensures Validate(c, res).Success? <==> PlaceOrderSpec(c, res.item, user, res.quantity).1.Some?
  {
  }
}
