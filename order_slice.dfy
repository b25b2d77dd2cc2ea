/** orderSlice.ts: the order entity and its store slice. */
module OrderSlice {
  import opened Wrappers
  import EntitySlice

  /** One line of an order. Quantity and price come from `parseInt` and
      `parseFloat` in the order pages, so either may be NaN (`None`). The
      optional `_id` is the one ManageOrder.tsx declares on its items. */
  datatype OrderItem = OrderItem(
    id: Option<string>,
    product: string,
    name: string,
    quantity: Option<int>,
    price: Option<real>)

  datatype ShippingAddress = ShippingAddress(address: string, city: string, postalCode: string, country: string)

  /** An order as the store caches it. */
  datatype Order = Order(
    createdAt: int,
    id: Option<string>,
    customer: string,
    orderItems: seq<OrderItem>,
    shippingAddress: ShippingAddress,
    paymentMethod: string,
    paymentReceived: bool,
    totalPrice: Option<real>,
    status: string)

  /** The body the order pages send to `createOrder` / `updateOrder`. */
  datatype OrderData = OrderData(
    customer: string,
    orderItems: seq<OrderItem>,
    shippingAddress: ShippingAddress,
    paymentMethod: string,
    paymentReceived: bool,
    totalPrice: Option<real>,
    status: string)

  function OrderId(o: Order): Option<string> { o.id }

  /** The slice's `initialState`. */
  method NewOrderSlice() returns (s: EntitySlice.Slice<Order>)
    ensures fresh(s)
    ensures forall o :: s.idOf(o) == o.id
    ensures s.items == [] && s.current == None && !s.loading && s.error == None && !s.success
  {
    s := new EntitySlice.Slice(OrderId);
  }
}
