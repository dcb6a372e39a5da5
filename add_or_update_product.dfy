/**
 * The add-or-update-product command (src/domain/orders/commands/add_or_update_product.rs).
 *
 * Load the order; classify it by the product. If a line item for the product is there, set its
 * quantity and write only that line item, returning its id. If not, draw a new line-item id, look
 * the product up, add it to the order with that id and write the whole order, returning the new
 * id. Every error is returned as it comes, and a failed invocation writes nothing.
 * The store can fail its reads and its writes separately, so an error of the write that ends an
 * invocation is returned like one of the read that starts it.
 */
module AddOrUpdateProductCommand {
  import opened Wrappers
  import opened Ids
  import opened Domain
  import opened Orders
  import opened OrderStore

  const PRODUCT_NOT_FOUND: string := "product not found"

  /** Input of the command. */
  datatype AddOrUpdateProduct = AddOrUpdateProduct(id: OrderId, productId: ProductId, quantity: U32)

  /** The product query (`GetProductQuery`), an input of the command: the product with that id, if any. */
  type ProductQuery = ProductId -> Result<Option<ProductData>, Error>

  /** What one invocation returns, and the one write it makes, if any. */
  datatype Outcome = Outcome(result: Result<LineItemId, Error>, write: Option<Write>)

  /**
   * What one invocation does, given the store's orders and its read and write faults before it,
   * the active transaction, the id provider with the value it would draw, and the product query.
   * On the absent branch the id is drawn before the product is looked up, and the drawn id is its
   * own provider for `add_product`.
   */
  function AddOrUpdate(
    orders: map<OrderId, OrderRecord>, readFault: Option<Error>, writeFault: Option<Error>,
    transaction: ActiveTransaction, idProvider: IdProvider<LineItemData>, draw: LineItemId,
    query: ProductQuery, command: AddOrUpdateProduct): (o: Outcome)
    ensures o.result.Ok? <==> o.write.Some?
    ensures writeFault.Some? ==> o.write.None?
  {
    if readFault.Some? then Outcome(Err(readFault.value), None)
    else if command.id !in orders then Outcome(Err(BadInput(NOT_FOUND)), None)
    else
      var record := orders[command.id];
      match FindLineItem(record.lineItems, command.productId)
      case Some(item) =>
        (match WithQuantity(item, command.quantity)
         case Err(e) => Outcome(Err(Msg(e)), None)
         case Ok(updated) => Commit(writeFault, LineItemSet(transaction, record.order.id, updated), item.id))
      case None =>
        match idProvider.Provide(draw)
        case Err(e) => Outcome(Err(Msg(e)), None)
        case Ok(id) =>
          match query(command.productId)
          case Err(e) => Outcome(Err(e), None)
          case Ok(None) => Outcome(Err(BadInput(PRODUCT_NOT_FOUND)), None)
          case Ok(Some(product)) =>
            match AddLineItem(record.lineItems, FixedId(id), id, product, command.quantity)
            case Err(e) => Outcome(Err(Msg(e)), None)
            case Ok(items) => Commit(writeFault, OrderSet(transaction, OrderRecord(record.order, items)), id)
  }

  /** The last step of an invocation: the write, which returns `id`, or the store's write error. */
  function Commit(writeFault: Option<Error>, write: Write, id: LineItemId): (o: Outcome)
    ensures writeFault.Some? ==> o == Outcome(Err(writeFault.value), None)
    ensures writeFault.None? ==> o == Outcome(Ok(id), Some(write))
  {
    if writeFault.Some? then Outcome(Err(writeFault.value), None) else Outcome(Ok(id), Some(write))
  }

  /** The stored orders after an outcome's write, if it made one. */
  function AfterWrite(orders: map<OrderId, OrderRecord>, write: Option<Write>): map<OrderId, OrderRecord>
  {
    if write.Some? then Apply(orders, write.value) else orders
  }

  /** An unknown order is `Err(bad_input("not found"))`, and nothing is written. */
  lemma UnknownOrderNotFound(
    orders: map<OrderId, OrderRecord>, transaction: ActiveTransaction,
    idProvider: IdProvider<LineItemData>, draw: LineItemId, query: ProductQuery, command: AddOrUpdateProduct)
    requires command.id !in orders
    ensures AddOrUpdate(orders, None, None, transaction, idProvider, draw, query, command)
      == Outcome(Err(BadInput(NOT_FOUND)), None)
  {
  }

  /**
   * A product already in the order: with a quantity of at least 1 the result is the existing line
   * item's id and the only write is that line item with the new quantity; with quantity 0 the
   * command fails before any write.
   */
  lemma ExistingLineItemUpdated(
    orders: map<OrderId, OrderRecord>, transaction: ActiveTransaction,
    idProvider: IdProvider<LineItemData>, draw: LineItemId, query: ProductQuery, command: AddOrUpdateProduct)
    requires FiledUnderOwnIds(orders) && command.id in orders
    requires HasProduct(orders[command.id].lineItems, command.productId)
    ensures var o := AddOrUpdate(orders, None, None, transaction, idProvider, draw, query, command);
      var item := FindLineItem(orders[command.id].lineItems, command.productId).value;
      && item.productId == command.productId
      && (command.quantity == 0 ==> o == Outcome(Err(Msg(QUANTITY_TOO_SMALL)), None))
      && (command.quantity >= 1 ==>
            && o.result == Ok(item.id)
            && o.write == Some(LineItemSet(transaction, command.id, item.(quantity := command.quantity))))
  {
  }

  /**
   * A product not yet in the order: a failing provider or query fails the command with its own
   * error, a missing product is `Err(bad_input("product not found"))`, and `add_product` refuses a
   * queried product already in the order, then a quantity of 0, none of them writing. When none
   * of these applies the command succeeds with the drawn id; on
   * success the drawn id is returned and the whole order is written with one more line item that has
   * that id, the product and the quantity.
   */
  lemma AbsentProductAdded(
    orders: map<OrderId, OrderRecord>, transaction: ActiveTransaction,
    idProvider: IdProvider<LineItemData>, draw: LineItemId, query: ProductQuery, command: AddOrUpdateProduct)
    requires command.id in orders
    requires !HasProduct(orders[command.id].lineItems, command.productId)
    ensures var o := AddOrUpdate(orders, None, None, transaction, idProvider, draw, query, command);
      var record := orders[command.id];
      var provided := idProvider.Provide(draw);
      && (provided.Err? ==> o == Outcome(Err(Msg(provided.error)), None))
      && (provided.Ok? && query(command.productId).Err? ==> o == Outcome(Err(query(command.productId).error), None))
      && (provided.Ok? && query(command.productId) == Ok(None) ==> o == Outcome(Err(BadInput(PRODUCT_NOT_FOUND)), None))
      && (provided.Ok? && query(command.productId).Ok? && query(command.productId).value.Some? ==>
            var product := query(command.productId).value.value;
            && (HasProduct(record.lineItems, product.id) ==> o == Outcome(Err(Msg(ALREADY_IN_ORDER)), None))
            && (!HasProduct(record.lineItems, product.id) && command.quantity == 0 ==>
                  o == Outcome(Err(Msg(QUANTITY_TOO_SMALL)), None))
            && (!HasProduct(record.lineItems, product.id) && command.quantity >= 1 ==>
                  o.result == Ok(provided.value)))
      && (o.result.Ok? ==>
            && provided.Ok? && o.result.value == provided.value
            && query(command.productId).Ok? && query(command.productId).value.Some?
            && var product := query(command.productId).value.value;
               o.write == Some(OrderSet(transaction, OrderRecord(record.order,
                 record.lineItems + [LineItemData(provided.value, DefaultVersion(), product.id, product.price, command.quantity)]))))
  {
    var record := orders[command.id];
    var o := AddOrUpdate(orders, None, None, transaction, idProvider, draw, query, command);
    var provided := idProvider.Provide(draw);
    if o.result.Ok? {
      var product := query(command.productId).value.value;
      var items := AddLineItem(record.lineItems, FixedId(provided.value), provided.value, product, command.quantity).value;
      assert items == items[..|record.lineItems|] + [items[|record.lineItems|]];
    }
  }

  /** An error of the store's read is returned unchanged and nothing is written. */
  lemma StoreErrorPropagates(
    orders: map<OrderId, OrderRecord>, fault: Error, writeFault: Option<Error>, transaction: ActiveTransaction,
    idProvider: IdProvider<LineItemData>, draw: LineItemId, query: ProductQuery, command: AddOrUpdateProduct)
    ensures AddOrUpdate(orders, Some(fault), writeFault, transaction, idProvider, draw, query, command) == Outcome(Err(fault), None)
  {
  }

  /**
   * An error of the store's write (`set_line_item` or `set_order`) is returned unchanged and
   * nothing is written; every invocation that would have written fails that way instead.
   */
  lemma WriteErrorPropagates(
    orders: map<OrderId, OrderRecord>, fault: Error, transaction: ActiveTransaction,
    idProvider: IdProvider<LineItemData>, draw: LineItemId, query: ProductQuery, command: AddOrUpdateProduct)
    ensures var healthy := AddOrUpdate(orders, None, None, transaction, idProvider, draw, query, command);
      AddOrUpdate(orders, None, Some(fault), transaction, idProvider, draw, query, command)
        == if healthy.result.Ok? then Outcome(Err(fault), None) else healthy
  {
  }

  /** No two line items referring to one product, and no two sharing an id. */
  ghost predicate WellFormed(record: OrderRecord)
  {
    && DistinctProducts(record.lineItems)
    && forall i, j | 0 <= i < j < |record.lineItems| :: record.lineItems[i].id != record.lineItems[j].id
  }

  /** The command keeps the aggregate invariant of the order it writes. */
  lemma AddOrUpdateKeepsDistinctProducts(
    orders: map<OrderId, OrderRecord>, transaction: ActiveTransaction,
    idProvider: IdProvider<LineItemData>, draw: LineItemId, query: ProductQuery, command: AddOrUpdateProduct)
    requires FiledUnderOwnIds(orders)
    requires command.id in orders && WellFormed(orders[command.id])
    ensures var after := AfterWrite(orders, AddOrUpdate(orders, None, None, transaction, idProvider, draw, query, command).write);
      command.id in after && DistinctProducts(after[command.id].lineItems)
  {
    var record := orders[command.id];
    var found := FindLineItem(record.lineItems, command.productId);
    var o := AddOrUpdate(orders, None, None, transaction, idProvider, draw, query, command);
    if o.write.None? {
    } else if found.Some? {
      var item := found.value;
      var updated := o.write.value.lineItem;
      var k :| 0 <= k < |record.lineItems| && record.lineItems[k] == item && NoneBefore(record.lineItems, command.productId, k);
      var replaced := ReplaceLineItem(record.lineItems, updated);
      forall i | 0 <= i < |replaced| ensures replaced[i].productId == record.lineItems[i].productId {
        if i != k {
          assert record.lineItems[i].id != record.lineItems[k].id;
        }
      }
    } else {
      var id := idProvider.Provide(draw).value;
      var product := query(command.productId).value.value;
      AddLineItemKeepsDistinct(record.lineItems, FixedId(id), id, product, command.quantity);
    }
  }

  /**
   * The test scenario: adding a product to an order without it returns the drawn id, and reading
   * that line item back gives the product and the quantity; adding the same product again with
   * another quantity returns the same id, and the line item now has the new quantity.
   */
  lemma AddThenUpdateScenario(
    order: OrderData, transaction: ActiveTransaction, lineItemId: LineItemId,
    product: ProductData, query: ProductQuery, first: U32, second: U32)
    requires query(product.id) == Ok(Some(product))
    requires first >= 1 && second >= 1
    ensures
      var orders := map[order.id := OrderRecord(order, [])];
      var add := AddOrUpdateProduct(order.id, product.id, first);
      var o1 := AddOrUpdate(orders, None, None, transaction, NextId, lineItemId, query, add);
      var orders1 := AfterWrite(orders, o1.write);
      var update := AddOrUpdateProduct(order.id, product.id, second);
      var o2 := AddOrUpdate(orders1, None, None, transaction, NextId, lineItemId, query, update);
      var orders2 := AfterWrite(orders1, o2.write);
      && o1.result == Ok(lineItemId)
      && order.id in orders1
      && FindById(orders1[order.id].lineItems, lineItemId)
           == Some(LineItemData(lineItemId, DefaultVersion(), product.id, product.price, first))
      && o2.result == Ok(lineItemId)
      && order.id in orders2
      && FindById(orders2[order.id].lineItems, lineItemId)
           == Some(LineItemData(lineItemId, DefaultVersion(), product.id, product.price, second))
  {
    var orders := map[order.id := OrderRecord(order, [])];
    var add := AddOrUpdateProduct(order.id, product.id, first);
    var added := LineItemData(lineItemId, DefaultVersion(), product.id, product.price, first);
    var o1 := AddOrUpdate(orders, None, None, transaction, NextId, lineItemId, query, add);
    assert o1.write == Some(OrderSet(transaction, OrderRecord(order, [added])));
    var orders1 := AfterWrite(orders, o1.write);
    assert orders1[order.id].lineItems == [added];
    var update := AddOrUpdateProduct(order.id, product.id, second);
    assert FindLineItem([added], product.id) == Some(added);
    var o2 := AddOrUpdate(orders1, None, None, transaction, NextId, lineItemId, query, update);
    assert o2.write == Some(LineItemSet(transaction, order.id, added.(quantity := second)));
    var orders2 := AfterWrite(orders1, o2.write);
    assert orders2[order.id].lineItems == [added.(quantity := second)];
  }

  /** The closure `add_or_update_product_command(transaction, store, id_provider, query)` returns. */
  class AddOrUpdateProductCommand {
    const transaction: ActiveTransaction
    const store: OrderStore
    const idProvider: IdProvider<LineItemData>
    const query: ProductQuery

    constructor (transaction: ActiveTransaction, store: OrderStore, idProvider: IdProvider<LineItemData>, query: ProductQuery)
      ensures this.transaction == transaction && this.store == store
      ensures this.idProvider == idProvider && this.query == query
    {
      this.transaction := transaction;
      this.store := store;
      this.idProvider := idProvider;
      this.query := query;
    }

    /**
     * `AddOrUpdateProductCommand::add_or_update_product`. `draw` is the id a generating provider
     * would produce on this call. The result is the one `AddOrUpdate` gives, the store holds the
     * orders after its write, and the store's history grows by exactly that write, if any.
     */
    method AddOrUpdateProduct(command: AddOrUpdateProduct, draw: LineItemId) returns (r: Result<LineItemId, Error>)
      requires store.Valid()
      modifies store
      ensures store.Valid() && store.readFault == old(store.readFault) && store.writeFault == old(store.writeFault)
      ensures var o := AddOrUpdate(old(store.orders), old(store.readFault), old(store.writeFault),
                                   transaction, idProvider, draw, query, command);
        && r == o.result
        && store.orders == AfterWrite(old(store.orders), o.write)
        && store.writes == old(store.writes) + (if o.write.Some? then [o.write.value] else [])
    {
      var loaded := store.GetOrder(command.id);
      var order: Order;
      match loaded {
        case Err(e) => return Err(e);
        case Ok(None) => return Err(BadInput(NOT_FOUND));
        case Ok(Some(found)) => order := found;
      }
      var classified := order.IntoLineItemForProduct(command.productId);
      if classified.InOrder? {
        var lineItem := classified.lineItem;
        var (_, data) := lineItem.IntoData();
        var id := data.id;
        var quantitySet := lineItem.SetQuantity(command.quantity);
        if quantitySet.Err? {
          return Err(Msg(quantitySet.error));
        }
        var written := store.SetLineItem(transaction, lineItem);
        match written {
          case Err(e) => return Err(e);
          case Ok(_) => r := Ok(id);
        }
      } else {
        var notInOrder := classified.order;
        var provided := idProvider.Provide(draw);
        if provided.Err? {
          return Err(Msg(provided.error));
        }
        var id := provided.value;
        var found := query(command.productId);
        if found.Err? {
          return Err(found.error);
        }
        if found.value.None? {
          return Err(BadInput(PRODUCT_NOT_FOUND));
        }
        var product := found.value.value;
        var added := notInOrder.AddProduct(FixedId(id), id, product, command.quantity);
        if added.Err? {
          return Err(Msg(added.error));
        }
        var written := store.SetOrder(transaction, notInOrder);
        match written {
          case Err(e) => return Err(e);
          case Ok(_) => r := Ok(id);
        }
      }
    }
  }
}
