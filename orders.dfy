/**
 * The order aggregate (src/domain/orders/model/mod.rs).
 *
 * An `Order` is an order's data and its line items in insertion order. The rule it exists to keep
 * is that no two line items refer to the same product: `add_product` refuses a product already in
 * the order. `into_line_item_for_product` classifies an order, once, into the line item for a
 * product (`InOrder`) or the unchanged order (`NotInOrder`); an `OrderLineItem` can then have
 * its quantity changed. Quantities are `u32` and must be at least 1.
 */
module Orders {
  import opened Wrappers
  import opened Ids
  import opened Domain

  type OrderError = string

  const QUANTITY_TOO_SMALL: OrderError := "quantity must be greater than 0"
  const ALREADY_IN_ORDER: OrderError := "product is already in order"

  /** A Rust `u32`. */
  type U32 = x: int | 0 <= x < 0x1_0000_0000

  /** An `f32` price: only ever copied, so it is kept as its 32-bit pattern. */
  type Price = bv32

  type OrderId = Id<OrderData>
  type LineItemId = Id<LineItemData>
  type OrderVersion = Version<OrderData>
  type LineItemVersion = Version<LineItemData>
  type ProductId = Id<ProductData>
  type CustomerId = Id<CustomerData>

  /** The part of a product an order reads: its id and its current price. */
  datatype ProductData = ProductData(id: ProductId, price: Price)

  /** The part of a customer an order reads: its id. */
  datatype CustomerData = CustomerData(id: CustomerId)

  /** A validated quantity (`Quantity(u32)`). */
  datatype Quantity = Quantity(value: U32)

  datatype OrderData = OrderData(id: OrderId, version: OrderVersion, customerId: CustomerId)

  datatype LineItemData = LineItemData(
    id: LineItemId,
    version: LineItemVersion,
    productId: ProductId,
    price: Price,
    quantity: U32)

  /** `Quantity::try_from`: a quantity below 1 is refused, any other is kept as it is. */
  function TryFromQuantity(quantity: U32): (r: Result<Quantity, OrderError>)
    ensures r.Err? <==> quantity == 0
    ensures r.Err? ==> r.error == QUANTITY_TOO_SMALL
    ensures r.Ok? ==> r.value.value == quantity
  {
    if quantity < 1 then Err(QUANTITY_TOO_SMALL) else Ok(Quantity(quantity))
  }

  /** Whether some line item refers to the product (the `any` over the line items). */
  function HasProduct(items: seq<LineItemData>, productId: ProductId): (r: bool)
    ensures r <==> exists i | 0 <= i < |items| :: items[i].productId == productId
  {
    if items == [] then false
    else items[0].productId == productId || HasProduct(items[1..], productId)
  }

  /** The first line item that refers to the product, if any (the `find` over the line items). */
  function FindLineItem(items: seq<LineItemData>, productId: ProductId): (r: Option<LineItemData>)
    ensures r.Some? <==> HasProduct(items, productId)
    ensures r.Some? ==> r.value.productId == productId
    ensures r.Some? ==> exists i | 0 <= i < |items| :: items[i] == r.value && NoneBefore(items, productId, i)
  {
    if items == [] then None
    else if items[0].productId == productId then (assert NoneBefore(items, productId, 0); Some(items[0]))
    else
      var rest := FindLineItem(items[1..], productId);
      assert rest.Some? ==> exists i | 0 <= i < |items| :: items[i] == rest.value && NoneBefore(items, productId, i) by {
        if rest.Some? {
          var i :| 0 <= i < |items[1..]| && items[1..][i] == rest.value && NoneBefore(items[1..], productId, i);
          assert items[i + 1] == rest.value && NoneBefore(items, productId, i + 1);
        }
      }
      rest
  }

  /** No line item before position `k` refers to the product. */
  ghost predicate NoneBefore(items: seq<LineItemData>, productId: ProductId, k: int)
    requires 0 <= k <= |items|
  {
    forall j | 0 <= j < k :: items[j].productId != productId
  }

  /** The aggregate invariant: the line items' product ids are pairwise distinct. */
  ghost predicate DistinctProducts(items: seq<LineItemData>)
  {
    forall i, j | 0 <= i < j < |items| :: items[i].productId != items[j].productId
  }

  /** With distinct products, the line item `find` returns is the only one for that product. */
  lemma FindLineItemUnique(items: seq<LineItemData>, productId: ProductId, k: int)
    requires DistinctProducts(items)
    requires 0 <= k < |items| && items[k].productId == productId
    ensures FindLineItem(items, productId) == Some(items[k])
  {
    var found := FindLineItem(items, productId);
    var i :| 0 <= i < |items| && items[i] == found.value && NoneBefore(items, productId, i);
    assert i == k;
  }

  /**
   * What `add_product` does to the line items: refuse a product already in the order; then ask
   * the provider for an id; then validate the quantity; then append one line item with that id,
   * the default version, the product's id and price, and the quantity. Each check precedes the next.
   */
  function AddLineItem(
    items: seq<LineItemData>, idProvider: IdProvider<LineItemData>, draw: LineItemId,
    product: ProductData, quantity: U32): (r: Result<seq<LineItemData>, OrderError>)
    ensures HasProduct(items, product.id) ==> r == Err(ALREADY_IN_ORDER)
    ensures !HasProduct(items, product.id) && idProvider.Provide(draw).Err? ==>
      r == Err(idProvider.Provide(draw).error)
    ensures !HasProduct(items, product.id) && idProvider.Provide(draw).Ok? && quantity == 0 ==>
      r == Err(QUANTITY_TOO_SMALL)
    ensures r.Ok? <==> !HasProduct(items, product.id) && idProvider.Provide(draw).Ok? && quantity >= 1
    ensures r.Ok? ==>
      && |r.value| == |items| + 1
      && r.value[..|items|] == items
      && r.value[|items|] == LineItemData(
           idProvider.Provide(draw).value, DefaultVersion(), product.id, product.price, quantity)
      && HasProduct(r.value, product.id)
  {
    if HasProduct(items, product.id) then Err(ALREADY_IN_ORDER)
    else
      match idProvider.Provide(draw)
      case Err(e) => Err(e)
      case Ok(id) =>
        match TryFromQuantity(quantity)
        case Err(e) => Err(e)
        case Ok(q) =>
          var added := items + [LineItemData(id, DefaultVersion(), product.id, product.price, q.value)];
          assert added[|items|].productId == product.id;
          Ok(added)
  }

  /** `add_product` keeps the aggregate invariant. */
  lemma AddLineItemKeepsDistinct(
    items: seq<LineItemData>, idProvider: IdProvider<LineItemData>, draw: LineItemId,
    product: ProductData, quantity: U32)
    requires DistinctProducts(items)
    requires AddLineItem(items, idProvider, draw, product, quantity).Ok?
    ensures DistinctProducts(AddLineItem(items, idProvider, draw, product, quantity).value)
  {
    var added := AddLineItem(items, idProvider, draw, product, quantity).value;
    forall i, j | 0 <= i < j < |added| ensures added[i].productId != added[j].productId {
      if j == |items| {
        assert added[i] == items[i];
      } else {
        assert added[i] == items[i] && added[j] == items[j];
      }
    }
  }

  /** What `set_quantity` does to a line item: validate the quantity, then overwrite it. */
  function WithQuantity(item: LineItemData, quantity: U32): (r: Result<LineItemData, OrderError>)
    ensures r.Err? <==> quantity == 0
    ensures r.Err? ==> r.error == QUANTITY_TOO_SMALL
    ensures r.Ok? ==> r.value.quantity == quantity
    ensures r.Ok? ==> && r.value.id == item.id && r.value.version == item.version
                      && r.value.productId == item.productId && r.value.price == item.price
  {
    match TryFromQuantity(quantity)
    case Err(e) => Err(e)
    case Ok(q) => Ok(item.(quantity := q.value))
  }

  /** The two outcomes of `into_line_item_for_product`. */
  datatype IntoLineItem = InOrder(lineItem: OrderLineItem) | NotInOrder(order: Order)

  /** An order and one of its line items (`OrderLineItem`). */
  class OrderLineItem {
    var order: OrderData
    var lineItem: LineItemData

    /** `OrderLineItem::from_data`. */
    constructor FromData(order: OrderData, lineItem: LineItemData)
      ensures this.order == order && this.lineItem == lineItem
    {
      this.order := order;
      this.lineItem := lineItem;
    }

    /** `into_data` and `to_data`: the owning order's id and the line item. */
    function IntoData(): (r: (OrderId, LineItemData))
      reads this
      ensures r.0 == order.id && r.1 == lineItem
    {
      (order.id, lineItem)
    }

    /**
     * `OrderLineItem::set_quantity`: a quantity of 0 is refused and nothing changes; any other
     * replaces the quantity and nothing else.
     */
    method SetQuantity(quantity: U32) returns (r: Result<Unit, OrderError>)
      modifies this
      ensures order == old(order)
      ensures match WithQuantity(old(lineItem), quantity)
              case Ok(item) => r == Ok(()) && lineItem == item
              case Err(e) => r == Err(e) && lineItem == old(lineItem)
    {
      var q := TryFromQuantity(quantity);
      match q {
        case Err(e) => return Err(e);
        case Ok(valid) => lineItem := lineItem.(quantity := valid.value);
      }
      r := Ok(());
    }
  }

  /** An order and its line items (`Order`). */
  class Order {
    var order: OrderData
    var lineItems: seq<LineItemData>

    /** `Order::from_data`. */
    constructor FromData(order: OrderData, lineItems: seq<LineItemData>)
      ensures this.order == order && this.lineItems == lineItems
    {
      this.order := order;
      this.lineItems := lineItems;
    }

    /** `into_data` and `to_data`: the order data and the line items, in insertion order. */
    function IntoData(): (r: (OrderData, seq<LineItemData>))
      reads this
      ensures r.0 == order && r.1 == lineItems
    {
      (order, lineItems)
    }

    /**
     * `Order::new`: an order with the provider's id, the default version, the customer's id and no
     * line items; it fails only when the provider does, with the provider's error.
     */
    static method New(idProvider: IdProvider<OrderData>, draw: OrderId, customer: CustomerData)
      returns (r: Result<Order, OrderError>)
      ensures r.Ok? <==> idProvider.Provide(draw).Ok?
      ensures r.Err? ==> r.error == idProvider.Provide(draw).error
      ensures r.Ok? ==> && fresh(r.value)
                        && r.value.order == OrderData(idProvider.Provide(draw).value, DefaultVersion(), customer.id)
                        && r.value.lineItems == []
    {
      var orderId: OrderId;
      match idProvider.Provide(draw) {
        case Err(e) => return Err(e);
        case Ok(provided) => orderId := provided;
      }
      var order := new Order.FromData(OrderData(orderId, DefaultVersion(), customer.id), []);
      r := Ok(order);
    }

    /** `Order::contains_product`: some line item refers to the product. */
    function ContainsProduct(productId: ProductId): (r: bool)
      reads this
      ensures r <==> exists i | 0 <= i < |lineItems| :: lineItems[i].productId == productId
    {
      HasProduct(lineItems, productId)
    }

    /**
     * `Order::add_product`: the line items become what `AddLineItem` says, or stay as they were
     * when it refuses; the order data never changes. The invariant is kept.
     */
    method AddProduct(idProvider: IdProvider<LineItemData>, draw: LineItemId, product: ProductData, quantity: U32)
      returns (r: Result<Unit, OrderError>)
      modifies this
      ensures order == old(order)
      ensures match AddLineItem(old(lineItems), idProvider, draw, product, quantity)
              case Ok(items) => r == Ok(()) && lineItems == items
              case Err(e) => r == Err(e) && lineItems == old(lineItems)
      ensures r.Ok? ==> ContainsProduct(product.id)
      ensures DistinctProducts(old(lineItems)) ==> DistinctProducts(lineItems)
    {
      if ContainsProduct(product.id) {
        return Err(ALREADY_IN_ORDER);
      }
      var id: LineItemId;
      match idProvider.Provide(draw) {
        case Err(e) => return Err(e);
        case Ok(provided) => id := provided;
      }
      var q: Quantity;
      match TryFromQuantity(quantity) {
        case Err(e) => return Err(e);
        case Ok(valid) => q := valid;
      }
      ghost var before := lineItems;
      lineItems := lineItems + [LineItemData(id, DefaultVersion(), product.id, product.price, q.value)];
      r := Ok(());
      if DistinctProducts(before) {
        AddLineItemKeepsDistinct(before, idProvider, draw, product, quantity);
      }
    }

    /**
     * `Order::into_line_item_for_product`: `NotInOrder` with this very order, unchanged, when no
     * line item refers to the product; otherwise `InOrder` with the order data and the first line
     * item that does.
     */
    method IntoLineItemForProduct(productId: ProductId) returns (r: IntoLineItem)
      ensures r.NotInOrder? <==> !ContainsProduct(productId)
      ensures r.NotInOrder? ==> r.order == this
      ensures r.InOrder? ==> && fresh(r.lineItem) && r.lineItem.order == order
                             && FindLineItem(lineItems, productId) == Some(r.lineItem.lineItem)
    {
      if !ContainsProduct(productId) {
        return NotInOrder(this);
      }
      var item := FindLineItem(lineItems, productId).value;
      var lineItem := new OrderLineItem.FromData(order, item);
      r := InOrder(lineItem);
    }
  }
}
