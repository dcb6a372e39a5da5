/**
 * The order store the add-or-update command reads and writes. Its Rust definition is not part of
 * this model; what the command needs of it is: `get_order` (an order and its line items, or none),
 * `set_order` (write a whole order) and `set_line_item` (write one line item of an order), the
 * writes taking the active transaction, plus `get_line_item` for reading a line item back.
 * Here it is a map from order id to record, a `readFault` standing for any error its reads report,
 * a `writeFault` standing for any error its writes report, and a history of the writes it accepted.
 */
module OrderStore {
  import opened Wrappers
  import opened Domain
  import opened Orders

  const NOT_FOUND: string := "not found"

  /** What the store keeps for one order: its data and its line items, in insertion order. */
  datatype OrderRecord = OrderRecord(order: OrderData, lineItems: seq<LineItemData>)

  /** One accepted write, with the transaction it was made in. */
  datatype Write =
    | OrderSet(transaction: ActiveTransaction, record: OrderRecord)
    | LineItemSet(transaction: ActiveTransaction, orderId: OrderId, lineItem: LineItemData)

  /** The line items with every item whose id is `item.id` replaced by `item`. */
  function ReplaceLineItem(items: seq<LineItemData>, item: LineItemData): (r: seq<LineItemData>)
    ensures |r| == |items|
    ensures forall i | 0 <= i < |items| :: r[i] == (if items[i].id == item.id then item else items[i])
  {
    seq(|items|, i requires 0 <= i < |items| => if items[i].id == item.id then item else items[i])
  }

  /** The stored orders after a write the store accepts. */
  function Apply(orders: map<OrderId, OrderRecord>, write: Write): (r: map<OrderId, OrderRecord>)
    ensures r.Keys == orders.Keys + (if write.OrderSet? then {write.record.order.id} else {})
    ensures forall id | id in orders && id != WrittenOrder(write) :: r[id] == orders[id]
  {
    match write
    case OrderSet(_, record) => orders[record.order.id := record]
    case LineItemSet(_, orderId, item) =>
      if orderId in orders
      then orders[orderId := orders[orderId].(lineItems := ReplaceLineItem(orders[orderId].lineItems, item))]
      else orders
  }

  /** The order a write is about. */
  function WrittenOrder(write: Write): OrderId
  {
    match write
    case OrderSet(_, record) => record.order.id
    case LineItemSet(_, orderId, _) => orderId
  }

  /** The first line item with the given id, as `get_line_item` finds it. */
  function FindById(items: seq<LineItemData>, id: LineItemId): (r: Option<LineItemData>)
    ensures r.Some? ==> r.value.id == id
    ensures r.Some? ==> exists k | 0 <= k < |items| :: items[k] == r.value && IdNotBefore(items, id, k)
    ensures r.None? ==> forall i | 0 <= i < |items| :: items[i].id != id
  {
    if items == [] then None
    else if items[0].id == id then
      assert IdNotBefore(items, id, 0);
      Some(items[0])
    else
      var r := FindById(items[1..], id);
      if r.Some? then
        assert exists k | 0 <= k < |items| :: items[k] == r.value && IdNotBefore(items, id, k) by {
          var k :| 0 <= k < |items[1..]| && items[1..][k] == r.value && IdNotBefore(items[1..], id, k);
          assert items[k + 1] == r.value;
          assert IdNotBefore(items, id, k + 1);
        }
        r
      else r
  }

  /** No line item before position `k` has the id `id`. */
  ghost predicate IdNotBefore(items: seq<LineItemData>, id: LineItemId, k: int)
  {
    forall i | 0 <= i < k && i < |items| :: items[i].id != id
  }

  /** The store's invariant: every order is filed under its own id. */
  ghost predicate FiledUnderOwnIds(orders: map<OrderId, OrderRecord>)
  {
    forall id | id in orders :: orders[id].order.id == id
  }

  class OrderStore {
    var orders: map<OrderId, OrderRecord>
    /** When set, every read fails with this error. */
    var readFault: Option<Error>
    /** When set, every write fails with this error and changes nothing. */
    var writeFault: Option<Error>
    /** The writes the store accepted, oldest first. */
    ghost var writes: seq<Write>

    ghost predicate Valid()
      reads this
    {
      FiledUnderOwnIds(orders)
    }

    /** An empty store that reports no error. */
    constructor ()
      ensures Valid()
      ensures orders == map[] && readFault == None && writeFault == None && writes == []
    {
      orders := map[];
      readFault := None;
      writeFault := None;
      writes := [];
    }

    /** `get_order`: a fresh `Order` over the stored record, or `None`; changes nothing. */
    method GetOrder(id: OrderId) returns (r: Result<Option<Order>, Error>)
      ensures readFault.Some? ==> r == Err(readFault.value)
      ensures readFault.None? ==> r.Ok? && (r.value.Some? <==> id in orders)
      ensures r.Ok? && r.value.Some? ==>
        && fresh(r.value.value) && id in orders
        && r.value.value.order == orders[id].order && r.value.value.lineItems == orders[id].lineItems
    {
      if readFault.Some? {
        return Err(readFault.value);
      }
      if id in orders {
        var order := new Order.FromData(orders[id].order, orders[id].lineItems);
        r := Ok(Some(order));
      } else {
        r := Ok(None);
      }
    }

    /** `get_line_item`: the order's first line item with that id, or `None`; changes nothing. */
    method GetLineItem(orderId: OrderId, lineItemId: LineItemId) returns (r: Result<Option<OrderLineItem>, Error>)
      ensures readFault.Some? ==> r == Err(readFault.value)
      ensures readFault.None? ==> r.Ok?
      ensures r.Ok? ==> (r.value.Some? <==> orderId in orders && FindById(orders[orderId].lineItems, lineItemId).Some?)
      ensures r.Ok? && r.value.Some? ==>
        && fresh(r.value.value) && orderId in orders
        && r.value.value.order == orders[orderId].order
        && Some(r.value.value.lineItem) == FindById(orders[orderId].lineItems, lineItemId)
    {
      if readFault.Some? {
        return Err(readFault.value);
      }
      if orderId !in orders {
        return Ok(None);
      }
      var found := FindById(orders[orderId].lineItems, lineItemId);
      if found.Some? {
        var lineItem := new OrderLineItem.FromData(orders[orderId].order, found.value);
        r := Ok(Some(lineItem));
      } else {
        r := Ok(None);
      }
    }

    /** `set_order`: files the whole order, with its line items, under its id. */
    method SetOrder(transaction: ActiveTransaction, order: Order) returns (r: Result<Unit, Error>)
      requires Valid()
      modifies this
      ensures Valid() && readFault == old(readFault) && writeFault == old(writeFault)
      ensures old(writeFault).Some? ==> r == Err(old(writeFault).value) && orders == old(orders) && writes == old(writes)
      ensures old(writeFault).None? ==>
        var write := OrderSet(transaction, OrderRecord(order.order, order.lineItems));
        r == Ok(()) && orders == Apply(old(orders), write) && writes == old(writes) + [write]
    {
      if writeFault.Some? {
        return Err(writeFault.value);
      }
      var (data, lineItems) := order.IntoData();
      orders := orders[data.id := OrderRecord(data, lineItems)];
      writes := writes + [OrderSet(transaction, OrderRecord(data, lineItems))];
      r := Ok(());
    }

    /**
     * `set_line_item`: replaces the line item with that id in its order. A line item of an order
     * the store does not hold is refused with "not found".
     */
    method SetLineItem(transaction: ActiveTransaction, lineItem: OrderLineItem) returns (r: Result<Unit, Error>)
      requires Valid()
      modifies this
      ensures Valid() && readFault == old(readFault) && writeFault == old(writeFault)
      ensures old(writeFault).Some? ==> r == Err(old(writeFault).value) && orders == old(orders) && writes == old(writes)
      ensures old(writeFault).None? && lineItem.order.id !in old(orders) ==>
        r == Err(BadInput(NOT_FOUND)) && orders == old(orders) && writes == old(writes)
      ensures old(writeFault).None? && lineItem.order.id in old(orders) ==>
        var write := LineItemSet(transaction, lineItem.order.id, lineItem.lineItem);
        r == Ok(()) && orders == Apply(old(orders), write) && writes == old(writes) + [write]
    {
      if writeFault.Some? {
        return Err(writeFault.value);
      }
      var (orderId, item) := lineItem.IntoData();
      if orderId !in orders {
        return Err(BadInput(NOT_FOUND));
      }
      var record := orders[orderId];
      orders := orders[orderId := record.(lineItems := ReplaceLineItem(record.lineItems, item))];
      writes := writes + [LineItemSet(transaction, orderId, item)];
      r := Ok(());
    }
  }
}
