/** The order editor pages, ManageOrder.tsx and NewOrder.tsx. Their item
    list, total effect and item and address handlers are the same code; they
    differ in their initial values, in ManageOrder's loading of a stored
    order, and in how they submit. */
module OrderEditor {
  import opened Wrappers
  import opened Numbers
  import opened OrderSlice
  import opened ProductSlice
  import Seqs

  // ---------------------------------------------------------------------
  // The order total

  /** `item.price * item.quantity`; NaN if either is. */
  function LineTotal(item: OrderItem): Option<real>
  {
    Mul(item.price, if item.quantity.Some? then Some(item.quantity.value as real) else None)
  }

  /** The total effect: `orderItems.reduce((sum, item) => sum + price * quantity, 0)`. */
  function Total(items: seq<OrderItem>): Option<real>
  {
    SumOf(items, LineTotal)
  }

  /** Every line has a parsed quantity and price. */
  predicate LinesParsed(items: seq<OrderItem>)
  {
    forall i :: 0 <= i < |items| ==> items[i].quantity.Some? && items[i].price.Some?
  }

  /** Reference definition: the plain sum of price times quantity. */
  ghost function ReferenceTotal(items: seq<OrderItem>): real
    requires LinesParsed(items)
  {
    if items == [] then 0.0
    else items[0].price.value * (items[0].quantity.value as real) + ReferenceTotal(items[1..])
  }

  /** The total is NaN exactly when some line's quantity or price is, and
      otherwise it is the sum of price times quantity over the lines. */
  lemma {:induction false} TotalSpec(items: seq<OrderItem>)
    ensures Total(items).Some? <==> LinesParsed(items)
    ensures LinesParsed(items) ==> Total(items).value == ReferenceTotal(items)
  {
    if items != [] {
      SumOfCons(items, LineTotal);
      TotalSpec(items[1..]);
      assert LinesParsed(items) <==> LineTotal(items[0]).Some? && LinesParsed(items[1..]) by {
        assert forall i :: 0 < i < |items| ==> items[i] == items[1..][i - 1];
      }
    }
  }

  /** A total over lines with non-negative prices and quantities is not
      negative. */
  lemma TotalNonNegative(items: seq<OrderItem>)
    requires forall i :: 0 <= i < |items| ==>
      (items[i].quantity.Some? ==> items[i].quantity.value >= 0) &&
      (items[i].price.Some? ==> items[i].price.value >= 0.0)
    ensures Total(items).Some? ==> Total(items).value >= 0.0
  {
    SumOfNonNegative(items, LineTotal);
  }

  /** The line `handleAddItem` appends: no product, quantity 1, price 0. */
  const BlankItem: OrderItem := OrderItem(None, "", "", Some(1), Some(0.0))

  /** Appending a blank line leaves the total as it was. */
  lemma AddBlankKeepsTotal(items: seq<OrderItem>)
    ensures Total(items + [BlankItem]) == Total(items)
  {
    SumOfSnoc(items, BlankItem, LineTotal);
  }

  /** The start position of `splice(index, 1)`: a negative index counts from
      the end, and one before the start is clamped to 0. */
  function SpliceStart(len: nat, index: int): (start: nat)
    ensures 0 <= index ==> start == index
    ensures index < 0 && index + len >= 0 ==> start == index + len
    ensures index + len < 0 ==> start == 0
  {
    if index >= 0 then index else if index + len >= 0 then index + len else 0
  }

  /** `newItems.splice(index, 1)` on a copy of the list. */
  function SpliceOne<T>(s: seq<T>, index: int): (r: seq<T>)
    ensures |r| == if SpliceStart(|s|, index) < |s| then |s| - 1 else |s|
    ensures SpliceStart(|s|, index) >= |s| ==> r == s
    ensures forall k :: 0 <= k < |r| && k < SpliceStart(|s|, index) ==> r[k] == s[k]
    ensures forall k :: SpliceStart(|s|, index) <= k < |r| ==> r[k] == s[k + 1]
  {
    Seqs.RemoveAt(s, SpliceStart(|s|, index))
  }

  /** Removing a line takes exactly its own term off the total. */
  lemma RemoveLineTotal(items: seq<OrderItem>, index: int)
    requires SpliceStart(|items|, index) < |items|
    ensures Total(items) == Add(LineTotal(items[SpliceStart(|items|, index)]), Total(SpliceOne(items, index)))
  {
    var k := SpliceStart(|items|, index);
    assert items == items[..k] + [items[k]] + items[k + 1..];
    assert SpliceOne(items, index) == items[..k] + items[k + 1..];
    SumOfExtract(items[..k], items[k], items[k + 1..], LineTotal);
  }

  /** Editing one line moves the total by the difference of its old and new
      terms, and leaves it defined when both the old total and the new term
      are. */
  lemma EditLineTotal(items: seq<OrderItem>, k: nat, edited: OrderItem)
    requires k < |items| && Total(items).Some? && LineTotal(edited).Some?
    ensures Total(items[k := edited]).Some? && LineTotal(items[k]).Some?
    ensures Total(items[k := edited]).value
         == Total(items).value - LineTotal(items[k]).value + LineTotal(edited).value
  {
    SumOfUpdate(items, k, edited, LineTotal);
  }

  // ---------------------------------------------------------------------
  // Item edits

  /** The edits `handleItemChange(index, field, value)` applies: the product
      select and the `parseInt` quantity and `parseFloat` price inputs, which
      the page renders, and `SetName`, the handler's generic branch for the
      name field, which no input on the page calls. */
  datatype ItemEdit =
    | SelectProduct(productId: string)
    | SetName(name: string)
    | SetQuantity(quantity: Option<int>)
    | SetPrice(price: Option<real>)

  /** The product the select refers to: the first with that `_id`. */
  function FindProduct(products: seq<Product>, productId: string): (r: Option<Product>)
    ensures r.None? <==> forall j :: 0 <= j < |products| ==> products[j].id != Some(productId)
    ensures r.Some? ==> r.value in products && r.value.id == Some(productId)
  {
    Seqs.Find(products, (p: Product) => p.id == Some(productId))
  }

  /** One edit of one line. Selecting a product copies its name and final
      price and keeps the quantity; selecting an id no product carries
      changes nothing. The other edits set their own field only. */
  function ApplyEdit(products: seq<Product>, item: OrderItem, edit: ItemEdit): (r: OrderItem)
    ensures r.id == item.id
    ensures edit.SelectProduct? && FindProduct(products, edit.productId).None? ==> r == item
    ensures edit.SelectProduct? && FindProduct(products, edit.productId).Some? ==>
      && r.product == edit.productId && r.quantity == item.quantity
      && r.name == FindProduct(products, edit.productId).value.name
      && r.price == FindProduct(products, edit.productId).value.finalPrice
    ensures edit.SetName? ==> r == item.(name := edit.name)
    ensures edit.SetQuantity? ==> r == item.(quantity := edit.quantity)
    ensures edit.SetPrice? ==> r == item.(price := edit.price)
  {
    match edit
    case SelectProduct(productId) =>
      (match FindProduct(products, productId)
       case Some(p) => item.(product := productId, name := p.name, price := p.finalPrice)
       case None => item)
    case SetName(name) => item.(name := name)
    case SetQuantity(quantity) => item.(quantity := quantity)
    case SetPrice(price) => item.(price := price)
  }

  /** After selecting a known product, the line's term is that product's
      final price times the line's quantity. */
  lemma SelectedLineTotal(products: seq<Product>, item: OrderItem, productId: string)
    requires FindProduct(products, productId).Some?
    ensures LineTotal(ApplyEdit(products, item, SelectProduct(productId)))
         == Mul(FindProduct(products, productId).value.finalPrice,
                if item.quantity.Some? then Some(item.quantity.value as real) else None)
  {
  }

  // ---------------------------------------------------------------------
  // Validation

  datatype AddressField = Address | City | PostalCode | Country

  function WithAddressField(a: ShippingAddress, field: AddressField, value: string): (r: ShippingAddress)
    ensures field == Address ==> r.address == value && r.(address := a.address) == a
    ensures field == City ==> r.city == value && r.(city := a.city) == a
    ensures field == PostalCode ==> r.postalCode == value && r.(postalCode := a.postalCode) == a
    ensures field == Country ==> r.country == value && r.(country := a.country) == a
  {
    match field
    case Address => a.(address := value)
    case City => a.(city := value)
    case PostalCode => a.(postalCode := value)
    case Country => a.(country := value)
  }

  /** The validation both pages share: a customer, a product on every line
      and all four address fields. */
  predicate CanSubmit(customer: string, items: seq<OrderItem>, a: ShippingAddress)
  {
    && customer != ""
    && (forall i :: 0 <= i < |items| ==> items[i].product != "")
    && a.address != "" && a.city != "" && a.postalCode != "" && a.country != ""
  }

  // ---------------------------------------------------------------------
  // The page

  /** The page state of either editor. The total effect, which runs whenever
      the items change, is folded into the handlers that change them, so the
      total shown and sent is always that of the current items (`Totaled`). */
  class Editor {
    var customer: string
    var items: seq<OrderItem>
    var shippingAddress: ShippingAddress
    var paymentMethod: string
    var paymentReceived: bool
    var status: string
    var totalPrice: Option<real>

    ghost predicate Totaled()
      reads this
    {
      totalPrice == Total(items)
    }

    /** Mount, followed by the total effect's first run. */
    constructor (initialItems: seq<OrderItem>, paymentMethod: string, status: string)
      ensures Totaled() && items == initialItems && customer == ""
      ensures shippingAddress == ShippingAddress("", "", "", "")
      ensures this.paymentMethod == paymentMethod && !paymentReceived && this.status == status
    {
      customer := "";
      items := initialItems;
      shippingAddress := ShippingAddress("", "", "", "");
      this.paymentMethod := paymentMethod;
      paymentReceived := false;
      this.status := status;
      totalPrice := Total(initialItems);
    }

    method SetCustomer(value: string)
      modifies this
      ensures customer == value && items == old(items) && totalPrice == old(totalPrice)
      ensures shippingAddress == old(shippingAddress) && paymentMethod == old(paymentMethod)
      ensures paymentReceived == old(paymentReceived) && status == old(status)
    {
      customer := value;
    }

    method SetPaymentMethod(value: string)
      modifies this
      ensures paymentMethod == value && items == old(items) && totalPrice == old(totalPrice)
      ensures customer == old(customer) && shippingAddress == old(shippingAddress)
      ensures paymentReceived == old(paymentReceived) && status == old(status)
    {
      paymentMethod := value;
    }

    /** The payment select: `e.target.value === 'true'`. */
    method SetPaymentReceived(value: string)
      modifies this
      ensures paymentReceived <==> value == "true"
      ensures items == old(items) && totalPrice == old(totalPrice) && customer == old(customer)
      ensures shippingAddress == old(shippingAddress) && paymentMethod == old(paymentMethod)
      ensures status == old(status)
    {
      paymentReceived := value == "true";
    }

    method SetStatus(value: string)
      modifies this
      ensures status == value && items == old(items) && totalPrice == old(totalPrice)
      ensures customer == old(customer) && shippingAddress == old(shippingAddress)
      ensures paymentMethod == old(paymentMethod) && paymentReceived == old(paymentReceived)
    {
      status := value;
    }

    /** `handleAddItem`: a blank line is appended; the total is unchanged and
        the order cannot be submitted until that line gets a product. */
    method AddItem()
      requires Totaled()
      modifies this
      ensures Totaled() && items == old(items) + [BlankItem]
      ensures totalPrice == old(totalPrice)
      ensures !CanSubmit(customer, items, shippingAddress)
      ensures customer == old(customer) && shippingAddress == old(shippingAddress)
      ensures paymentMethod == old(paymentMethod) && paymentReceived == old(paymentReceived)
      ensures status == old(status)
    {
      AddBlankKeepsTotal(items);
      items := items + [BlankItem];
      totalPrice := Total(items);
      assert items[|items| - 1].product == "";
    }

    /** `handleRemoveItem(index)`: with more than one line, the line at the
        splice position goes and its term leaves the total; the last line is
        never removed. */
    method RemoveItem(index: int)
      requires Totaled()
      modifies this
      ensures Totaled()
      ensures items == if |old(items)| > 1 then SpliceOne(old(items), index) else old(items)
      ensures |old(items)| >= 1 ==> |items| >= 1
      ensures |old(items)| > 1 && SpliceStart(|old(items)|, index) < |old(items)| ==>
        old(totalPrice) == Add(LineTotal(old(items)[SpliceStart(|old(items)|, index)]), totalPrice)
      ensures customer == old(customer) && shippingAddress == old(shippingAddress)
      ensures paymentMethod == old(paymentMethod) && paymentReceived == old(paymentReceived)
      ensures status == old(status)
    {
      if |items| > 1 {
        if SpliceStart(|items|, index) < |items| {
          RemoveLineTotal(items, index);
        }
        items := SpliceOne(items, index);
        totalPrice := Total(items);
      }
    }

    /** `handleItemChange(index, field, value)` for a rendered line. */
    method EditItem(products: seq<Product>, index: nat, edit: ItemEdit)
      requires Totaled() && index < |items|
      modifies this
      ensures Totaled() && items == old(items)[index := ApplyEdit(products, old(items)[index], edit)]
      ensures old(totalPrice).Some? && LineTotal(items[index]).Some? ==>
        && totalPrice.Some? && LineTotal(old(items)[index]).Some?
        && totalPrice.value == old(totalPrice).value - LineTotal(old(items)[index]).value + LineTotal(items[index]).value
      ensures customer == old(customer) && shippingAddress == old(shippingAddress)
      ensures paymentMethod == old(paymentMethod) && paymentReceived == old(paymentReceived)
      ensures status == old(status)
    {
      var edited := ApplyEdit(products, items[index], edit);
      if totalPrice.Some? && LineTotal(edited).Some? {
        EditLineTotal(items, index, edited);
      }
      items := items[index := edited];
      totalPrice := Total(items);
    }

    /** `handleShippingChange(field, value)` */
    method EditShipping(field: AddressField, value: string)
      modifies this
      ensures shippingAddress == WithAddressField(old(shippingAddress), field, value)
      ensures items == old(items) && totalPrice == old(totalPrice) && customer == old(customer)
      ensures paymentMethod == old(paymentMethod) && paymentReceived == old(paymentReceived)
      ensures status == old(status)
    {
      shippingAddress := WithAddressField(shippingAddress, field, value);
    }

    /** ManageOrder's load effect, followed by the total effect it triggers:
        the total shown is recomputed from the stored lines, not copied from
        the stored order. */
    method Load(o: Order)
      modifies this
      ensures Totaled() && totalPrice == Total(o.orderItems)
      ensures customer == o.customer && items == o.orderItems && shippingAddress == o.shippingAddress
      ensures paymentMethod == o.paymentMethod && paymentReceived == o.paymentReceived
      ensures status == o.status
    {
      customer := o.customer;
      items := o.orderItems;
      shippingAddress := o.shippingAddress;
      paymentMethod := o.paymentMethod;
      paymentReceived := o.paymentReceived;
      status := o.status;
      totalPrice := Total(items);
    }

    /** The `orderData` object both pages build, with the given status. */
    function Payload(withStatus: string): OrderData
      reads this
    {
      OrderData(customer, items, shippingAddress, paymentMethod, paymentReceived, totalPrice, withStatus)
    }

    /** ManageOrder's `handleSubmit`: nothing without a route id, the alert
        when validation fails, otherwise `updateOrder({ id, orderData })`.
        The total sent is the total of the lines sent. */
    function SaveChanges(routeId: Option<string>): (r: Submission<(string, OrderData)>)
      reads this
      ensures r.Skipped? <==> routeId.None? || routeId.value == ""
      ensures r.Invalid? <==> !r.Skipped? && !CanSubmit(customer, items, shippingAddress)
      ensures r.Sent? ==> r.payload.0 == routeId.value && r.payload.1.status == status
      ensures r.Sent? ==> r.payload.1.orderItems == items && r.payload.1.customer == customer
      ensures r.Sent? ==> r.payload.1.shippingAddress == shippingAddress
      ensures r.Sent? ==> r.payload.1.paymentMethod == paymentMethod && r.payload.1.paymentReceived == paymentReceived
      ensures r.Sent? && Totaled() ==> r.payload.1.totalPrice == Total(r.payload.1.orderItems)
    {
      if routeId.None? || routeId.value == "" then Skipped
      else if !CanSubmit(customer, items, shippingAddress) then Invalid
      else Sent((routeId.value, Payload(status)))
    }

    /** NewOrder's `handleSubmit(e, saveAsDraft)`: the alert when validation
        fails, otherwise `createOrder(orderData)`; the draft button sends
        status "Saved" whatever the status select shows. */
    function SubmitNew(saveAsDraft: bool): (r: Submission<OrderData>)
      reads this
      ensures !r.Skipped?
      ensures r.Invalid? <==> !CanSubmit(customer, items, shippingAddress)
      ensures r.Sent? ==> r.payload.status == if saveAsDraft then "Saved" else status
      ensures r.Sent? ==> r.payload.orderItems == items && r.payload.customer == customer
      ensures r.Sent? ==> r.payload.shippingAddress == shippingAddress
      ensures r.Sent? ==> r.payload.paymentMethod == paymentMethod && r.payload.paymentReceived == paymentReceived
      ensures r.Sent? && Totaled() ==> r.payload.totalPrice == Total(r.payload.orderItems)
    {
      if !CanSubmit(customer, items, shippingAddress) then Invalid
      else Sent(Payload(if saveAsDraft then "Saved" else status))
    }
  }

  /** NewOrder's initial state: one blank line, "Credit Card", "Pending".
      The total starts at 0 and the form cannot be submitted yet. */
  method NewOrderPage() returns (e: Editor)
    ensures fresh(e) && e.Totaled() && e.items == [BlankItem]
    ensures e.paymentMethod == "Credit Card" && e.status == "Pending"
    ensures e.totalPrice == Some(0.0)
    ensures e.SubmitNew(false) == Invalid && e.SubmitNew(true) == Invalid
  {
    e := new Editor([BlankItem], "Credit Card", "Pending");
    AddBlankKeepsTotal([]);
    assert [] + [BlankItem] == [BlankItem];
    assert e.items[0].product == "";
  }

  /** ManageOrder's initial state, before the stored order arrives: no
      lines, a total of 0, empty payment method and status. */
  method ManageOrderPage() returns (e: Editor)
    ensures fresh(e) && e.Totaled() && e.items == []
    ensures e.paymentMethod == "" && e.status == "" && e.totalPrice == Some(0.0)
  {
    e := new Editor([], "", "");
  }
}
