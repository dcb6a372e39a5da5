/**
 * The older order aggregate (src/domain/orders/order.rs): an order and its items over `i32` ids,
 * with the same rule as the current aggregate, that a product is added only if no item refers to it.
 * Every item this snapshot adds has the fixed id 1 and the fixed price 1.0.
 */
module LegacyOrders {
  import opened Wrappers
  import opened Products

  type OrderError = string

  const ALREADY_IN_ORDER: OrderError := "product is already in order"

  /** The item id every added item gets. */
  const ITEM_ID: I32 := 1

  /** The price every added item gets: the bit pattern of the `f32` value 1.0. */
  const ONE_F32: bv32 := 0x3F80_0000

  datatype OrderData = OrderData(id: I32)

  datatype OrderItemData = OrderItemData(id: I32, productId: I32, price: bv32)

  /** `Order`, a wrapper around its data. */
  datatype Order = Order(data: OrderData) {
    /** `Order::new`: splitting the result gives back the data. */
    static function New(data: OrderData): (o: Order)
      ensures o.Split() == data
    {
      Order(data)
    }

    /** `Order::split`. */
    function Split(): OrderData
    {
      data
    }

    /** `split` is the inverse of `new` the other way round too: rebuilding from the parts gives back the order. */
    lemma SplitThenNew()
      ensures New(Split()) == this
    {
    }
  }

  /** `OrderItem`, a wrapper around its data. */
  datatype OrderItem = OrderItem(data: OrderItemData) {
    /** `OrderItem::new`: splitting the result gives back the data. */
    static function New(data: OrderItemData): (o: OrderItem)
      ensures o.Split() == data
    {
      OrderItem(data)
    }

    /** `OrderItem::split`. */
    function Split(): OrderItemData
    {
      data
    }

    /** `split` is the inverse of `new` the other way round too: rebuilding from the parts gives back the item. */
    lemma SplitThenNew()
      ensures New(Split()) == this
    {
    }
  }

  /** Whether some item refers to the product (the `any` over the items). */
  function AnyRefers(items: seq<OrderItem>, productId: I32): (r: bool)
    ensures r <==> exists i | 0 <= i < |items| :: items[i].data.productId == productId
  {
    if items == [] then false
    else items[0].data.productId == productId || AnyRefers(items[1..], productId)
  }

  /** No two items refer to the same product. */
  ghost predicate DistinctProducts(items: seq<OrderItem>)
  {
    forall i, j | 0 <= i < j < |items| :: items[i].data.productId != items[j].data.productId
  }

  /** What `add_product` does to the items: refuse a product already there, else append its item. */
  function AddItem(items: seq<OrderItem>, productId: I32): (r: Result<seq<OrderItem>, OrderError>)
    ensures r.Err? <==> AnyRefers(items, productId)
    ensures r.Err? ==> r.error == ALREADY_IN_ORDER
    ensures r.Ok? ==>
      && |r.value| == |items| + 1
      && r.value[..|items|] == items
      && r.value[|items|].Split() == OrderItemData(ITEM_ID, productId, ONE_F32)
      && AnyRefers(r.value, productId)
  {
    if !AnyRefers(items, productId)
    then
      var added := items + [OrderItem.New(OrderItemData(ITEM_ID, productId, ONE_F32))];
      assert added[|items|].data.productId == productId;
      Ok(added)
    else Err(ALREADY_IN_ORDER)
  }

  /** Adding keeps the items' products distinct. */
  lemma AddItemKeepsDistinct(items: seq<OrderItem>, productId: I32)
    requires DistinctProducts(items)
    ensures AddItem(items, productId).Ok? ==> DistinctProducts(AddItem(items, productId).value)
  {
    if !AnyRefers(items, productId) {
      var added := AddItem(items, productId).value;
      forall i, j | 0 <= i < j < |added| ensures added[i].data.productId != added[j].data.productId {
        if j < |items| {
          assert added[i] == items[i] && added[j] == items[j];
        } else {
          assert added[i] == items[i];
        }
      }
    }
  }

  /** `OrderAggregate`: an order and its items. */
  class OrderAggregate {
    var order: Order
    var orderItems: seq<OrderItem>

    /** Builds an aggregate from its parts (the snapshot does not show how it builds one). */
    constructor (order: Order, orderItems: seq<OrderItem>)
      ensures this.order == order && this.orderItems == orderItems
    {
      this.order := order;
      this.orderItems := orderItems;
    }

    /** `OrderAggregate::contains_product`: some item refers to the product. */
    function ContainsProduct(productId: I32): (r: bool)
      reads this
      ensures r <==> exists i | 0 <= i < |orderItems| :: orderItems[i].data.productId == productId
    {
      AnyRefers(orderItems, productId)
    }

    /**
     * `OrderAggregate::add_product`: the items become what `AddItem` says, or stay as they were
     * when it refuses; afterwards the product is in the order either way, and distinct products
     * stay distinct.
     */
    method AddProduct(product: Product) returns (r: Result<Unit, OrderError>)
      modifies this
      ensures order == old(order)
      ensures match AddItem(old(orderItems), product.data.id)
              case Ok(items) => r == Ok(()) && orderItems == items
              case Err(e) => r == Err(e) && orderItems == old(orderItems)
      ensures ContainsProduct(product.data.id)
      ensures DistinctProducts(old(orderItems)) ==> DistinctProducts(orderItems)
    {
      var data := product.IntoData();
      var id := data.id;
      ghost var before := orderItems;
      if !ContainsProduct(id) {
        var orderItem := OrderItem.New(OrderItemData(ITEM_ID, id, ONE_F32));
        orderItems := orderItems + [orderItem];
        assert orderItems[|before|].data.productId == id;
        r := Ok(());
      } else {
        r := Err(ALREADY_IN_ORDER);
      }
      if DistinctProducts(before) {
        AddItemKeepsDistinct(before, id);
      }
    }
  }
}
