# Order and product domain model

A Dafny model of the domain layer of a small order-management service written in Rust: typed ids,
the `Order` aggregate with its line items, the add-or-update-product command that loads, classifies,
mutates and writes an order, the product entity with its in-memory store and its two commands, and
an older snapshot of the order aggregate.

- `Ids` (`ids.dfy`): `Id<T>`, a UUID with a phantom tag. Equality, ordering and cloning delegate to the UUID.
  There are two providers: an id that provides itself, and a generating provider.
- `Orders` (`orders.dfy`): `Quantity`, `OrderData`, `LineItemData`, the classes `Order` and
  `OrderLineItem`, and the sum type `IntoLineItem`. `add_product` and `set_quantity` update them in
  place. The pure functions `AddLineItem` and `WithQuantity` state what those two updates do.
  The aggregate's rule is `DistinctProducts`: no two line items refer to the same product.
- `OrderStore` (`order_store.dfy`): the order store the command needs, as a map inside a class.
  It can fail its reads and its writes with separate errors, and it keeps a ghost history of the writes it accepted.
- `AddOrUpdateProductCommand` (`add_or_update_product.dfy`): the command as a method on the class
  that holds its collaborators. It is proved equal to the function `AddOrUpdate`, which gives the
  result and the single write of one invocation. Lemmas about that function state the properties.
- `Products`, `ProductStore`, `SetProductCommand`, `SetProductTitleCommand`: the product entity
  with `i32` ids, its in-memory store, the upsert command and the set-title command.
- `LegacyOrders` (`legacy_orders.dfy`): the older `OrderAggregate` over `i32` ids.
- `Wrappers` and `Domain` hold `Option`/`Result`, the command `Error` type, `Version` and the
  active-transaction handle.

Each source file is modelled at its own types, because the files come from different snapshots.
In `orders/model/mod.rs` a product is an id and a price, and product ids are `Id`s.
In `products/model/mod.rs` a product is an `i32` id and a title.

Inputs the model takes as parameters:
- UUID generation: a generating provider returns the `draw` argument, the value `Uuid::new_v4()` would give.
- UUID parsing and printing: passed to `Ids.TryFrom` and `Id.ToText` as functions.
- The product query of the add-or-update command: a function field of the command.
- The active transaction: a constant handle that the order store records with each write.

Where the code and its context disagree, the model follows the code:
- `products/queries/get_product.rs` returns `Result<Product, _>` and fails on a missing product.
  The add-or-update command treats its query as returning `Result<Option<Product>, _>`, so the model does too.
- Neither product command uses the shown `ProductStore` trait directly.
  `set_product.rs` captures a `TStore: Store` from `domain::products::infra` (set_product.rs:4, 19).
  `set_product_title.rs` calls `get_product`/`set_product(transaction, _)` on a product store.
  Neither store's definition is shown, so the model runs both commands against the shown `get`/`set` store.

## Model

| member | source | states |
|---|---|---|
| `Ids.Id.Eq` | src/domain/id.rs:37-41 | two ids are equal exactly when their UUIDs are equal |
| `Ids.Id.Ne` | src/domain/id.rs:42-44 | `ne` is the negation of `eq` |
| `Ids.Id.Cmp` | src/domain/id.rs:55-59 | `cmp` is the UUID order: `Equal` exactly when `eq` holds, `Less`/`Greater` exactly when the UUID is smaller/larger |
| `Ids.Id.PartialCmp` | src/domain/id.rs:49-53 | `partial_cmp` is always defined and agrees with `cmp` |
| `Ids.CmpAntisymmetric` | src/domain/id.rs:55-59 | swapping the operands of `cmp` reverses the answer |
| `Ids.CmpTransitive` | src/domain/id.rs:55-59 | `cmp` is transitive, for both the non-strict and the strict order |
| `Ids.Id.Clone` | src/domain/id.rs:29-35 | a clone is equal to the original and compares `Equal` to it |
| `Ids.Id.ToText` | src/domain/id.rs:23-27 | an id displays as its UUID's text |
| `Ids.TryFrom` | src/domain/id.rs:73-82 | parsing succeeds exactly when the UUID parse does, and wraps the parsed UUID; otherwise the error is the parser's error text |
| `Ids.ParseFormatRoundTrip` | src/domain/id.rs:23-82 | if the UUID parser inverts its formatter, parsing an id's text gives back the same id |
| `Ids.IdProvider.Provide` | src/domain/id.rs:104-129 | a fixed id provides `Ok` of itself; `NextId` provides `Ok` of the drawn id; only another implementation can fail |
| `Ids.BuiltInProvidersNeverFail` | src/domain/id.rs:108-129 | neither provider defined in id.rs ever returns `Err` |
| `Orders.TryFromQuantity` | src/domain/orders/model/mod.rs:33-43 | a quantity fails exactly when it is 0, with "quantity must be greater than 0"; otherwise it is wrapped unchanged |
| `Orders.HasProduct` | src/domain/orders/model/mod.rs:167-171 | true exactly when some line item has the product id |
| `Orders.FindLineItem` | src/domain/orders/model/mod.rs:139-142 | finds a line item exactly when the product is present; the item found has that product and is the first such item |
| `Orders.FindLineItemUnique` | src/domain/orders/model/mod.rs:131-146 | when products are distinct, the item found is the one line item for that product |
| `Orders.AddLineItem` | src/domain/orders/model/mod.rs:173-201 | fails when the product is present, checked first; then a provider failure; then quantity 0. Succeeds exactly when none applies. On success exactly one item is appended, earlier items are unchanged, the new item has the provider's id, the default version, the product's id and price and the quantity, and the product is then present |
| `Orders.AddLineItemKeepsDistinct` | src/domain/orders/model/mod.rs:184-198 | a successful add keeps the line items' product ids pairwise distinct |
| `Orders.WithQuantity` | src/domain/orders/model/mod.rs:100-107 | quantity 0 fails; any other quantity replaces the quantity and keeps id, version, product id and price |
| `Orders.OrderLineItem.FromData` | src/domain/orders/model/mod.rs:85-90 | the order line item holds exactly the given order data and line item |
| `Orders.OrderLineItem.IntoData` | src/domain/orders/model/mod.rs:92-98 | `into_data`/`to_data` give the owning order's id and the line item |
| `Orders.OrderLineItem.SetQuantity` | src/domain/orders/model/mod.rs:100-107 | the line item becomes what `WithQuantity` gives, or is unchanged on failure; the order data never changes |
| `Orders.Order.FromData` | src/domain/orders/model/mod.rs:111-121 | the order holds exactly the given data and line items |
| `Orders.Order.IntoData` | src/domain/orders/model/mod.rs:123-129 | `into_data`/`to_data` give the order data and the line items in insertion order |
| `Orders.Order.New` | src/domain/orders/model/mod.rs:148-165 | succeeds exactly when the provider does, with the provider's error otherwise. The new order has the provider's id, the default version, the customer's id and no line items |
| `Orders.Order.ContainsProduct` | src/domain/orders/model/mod.rs:167-171 | true exactly when some line item refers to the product |
| `Orders.Order.AddProduct` | src/domain/orders/model/mod.rs:173-201 | the line items become what `AddLineItem` gives, or are unchanged when it refuses. After success the product is contained. Distinct products stay distinct, and the order data never changes |
| `Orders.Order.IntoLineItemForProduct` | src/domain/orders/model/mod.rs:131-146 | returns `NotInOrder` with the same, unchanged order exactly when the product is absent. Otherwise returns `InOrder` with the same order data and the first line item for the product |
| `OrderStore.OrderStore.constructor` | src/domain/orders/commands/add_or_update_product.rs:147 | a new store is empty and reports no error |
| `OrderStore.OrderStore.GetOrder` | src/domain/orders/commands/add_or_update_product.rs:63 | returns the stored order and its line items, or `None` for an unknown id, or the store's read error; it changes nothing |
| `OrderStore.FindById` | src/domain/orders/commands/add_or_update_product.rs:174-178 | the search `get_line_item` performs: finds an item exactly when one has that id, and then the first such item |
| `OrderStore.OrderStore.GetLineItem` | src/domain/orders/commands/add_or_update_product.rs:174-178 | returns the stored order's first line item with that id, or `None`, or the store's read error |
| `OrderStore.OrderStore.SetOrder` | src/domain/orders/commands/add_or_update_product.rs:92 | files the whole order under its id and records exactly that one write; on a store write error it returns that error and nothing changes |
| `OrderStore.OrderStore.SetLineItem` | src/domain/orders/commands/add_or_update_product.rs:74 | replaces the line item with that id in its stored order and records exactly that one write; on a store write error it returns that error and nothing changes |
| `AddOrUpdateProductCommand.AddOrUpdateProductCommand.constructor` | src/domain/orders/commands/add_or_update_product.rs:49-54 | the command holds exactly the transaction, store, id provider and query it is built from |
| `AddOrUpdateProductCommand.AddOrUpdate` | src/domain/orders/commands/add_or_update_product.rs:55-107 | one invocation's result and write: the result is `Ok` exactly when one write is made, and nothing is written when the store's writes fail |
| `AddOrUpdateProductCommand.UnknownOrderNotFound` | src/domain/orders/commands/add_or_update_product.rs:63-106 | an unknown order gives `Err(bad_input("not found"))` and no write |
| `AddOrUpdateProductCommand.ExistingLineItemUpdated` | src/domain/orders/commands/add_or_update_product.rs:64-77 | for a product already present, the existing line item's id is returned and its quantity is set. The only write is that line item through `set_line_item`. Quantity 0 fails before any write |
| `AddOrUpdateProductCommand.AbsentProductAdded` | src/domain/orders/commands/add_or_update_product.rs:78-95 | for an absent product, errors from the provider or query propagate and a missing product gives `Err(bad_input("product not found"))`. `add_product` then refuses a queried product whose id is already in the order with "product is already in order", and otherwise a quantity of 0 with "quantity must be greater than 0". None of these writes. The command succeeds exactly when none of these applies, and then the drawn id is returned and `set_order` writes the order with one more line item: that id, the product and the quantity |
| `AddOrUpdateProductCommand.StoreErrorPropagates` | src/domain/orders/commands/add_or_update_product.rs:63 | an error of the store's read is returned unchanged, with no write |
| `AddOrUpdateProductCommand.WriteErrorPropagates` | src/domain/orders/commands/add_or_update_product.rs:73-92 | an error of `set_line_item` or `set_order` is returned unchanged with no write, in every invocation that would otherwise have succeeded; every other invocation fails as it would have anyway |
| `AddOrUpdateProductCommand.AddOrUpdateKeepsDistinctProducts` | src/domain/orders/commands/add_or_update_product.rs:64-95 | if the order had distinct products and distinct line-item ids, its products are still distinct after the command's write |
| `AddOrUpdateProductCommand.AddThenUpdateScenario` | src/domain/orders/commands/add_or_update_product.rs:145-226 | the two tests together: adding returns the drawn id and stores the quantity; adding the same product again returns the same id and stores the new quantity |
| `AddOrUpdateProductCommand.AddOrUpdateProductCommand.AddOrUpdateProduct` | src/domain/orders/commands/add_or_update_product.rs:55-107 | the method's result is `AddOrUpdate`'s for the store's orders and faults, the store holds the orders after that write, and the store's history grows by that one write or stays the same |
| `Products.WithTitle` | src/domain/products/model/mod.rs:35-39 | replacing the title keeps the id and sets the title |
| `Products.WithTitleIdempotent` | src/domain/products/model/mod.rs:35-39 | setting a title twice gives the same data as setting it once |
| `Products.WithTitleOverrides` | src/domain/products/model/mod.rs:35-39 | the last title set wins |
| `Products.Product.FromData` | src/domain/products/model/mod.rs:17-21 | the product holds exactly the given data |
| `Products.Product.IntoData` | src/domain/products/model/mod.rs:23-25 | gives back the product's id and title |
| `Products.Product.New` | src/domain/products/model/mod.rs:27-33 | always succeeds, with the given id and title |
| `Products.Product.SetTitle` | src/domain/products/model/mod.rs:35-39 | always succeeds, sets the title and keeps the id |
| `Products.FromDataSetTitleTwice` | src/domain/products/model/mod.rs:17-39 | `into_data(from_data(d))` is `d`, and `d` with its title set twice is `d` with that title |
| `ProductStore.InMemoryStore.constructor` | src/domain/products/model/store.rs:45-47 | a new store is empty |
| `ProductStore.InMemoryStore.Get` | src/domain/products/model/store.rs:18-29 | returns `Ok(None)` for an absent id and `Ok(Some)` of a product over the stored data otherwise, which is what `Lookup` finds; it changes nothing |
| `ProductStore.InMemoryStore.Set` | src/domain/products/model/store.rs:31-42 | inserts the product's data under its id, overwriting any earlier entry, and leaves every other id unchanged |
| `ProductStore.LookupAfterSet` | src/domain/products/model/store.rs:18-42 | with `Get` stated through `Lookup` and `Set`'s new map: after a set, a get for that id finds the set data, and a get for any other id finds what it found before |
| `ProductStore.SetThenGet` | src/domain/products/model/store.rs:18-47 | on a fresh store, a get finds nothing; after a set, a get for that id finds the set data |
| `SetProductCommand.SetProductCommand.constructor` | src/domain/products/commands/set_product.rs:18-20 | the command holds exactly the store it is built from |
| `SetProductCommand.SetProductCommand.SetProduct` | src/domain/products/commands/set_product.rs:21-34 | upsert: an existing product takes the new title; otherwise a new product with the id and title is stored. Either way the store then maps the id to that id and title, other entries are unchanged, exactly one write happens and the result is the write's `Ok` |
| `SetProductTitleCommand.SetProductTitleCommand.constructor` | src/domain/products/commands/set_product_title.rs:37-40 | the command holds exactly the store it is built from; the transaction provider is dropped |
| `SetProductTitleCommand.SetProductTitleCommand.SetProductTitle` | src/domain/products/commands/set_product_title.rs:41-64 | a missing product gives `Err("not found")` with no write. Otherwise the stored product takes the new title and keeps its id, exactly one write happens, and the result is `Ok(())` |
| `LegacyOrders.Order.New` | src/domain/orders/order.rs:30-40 | `Order::new(d).split() == d` |
| `LegacyOrders.Order.SplitThenNew` | src/domain/orders/order.rs:37-39 | `Order::new(o.split()) == o`: `split` and `new` are inverses |
| `LegacyOrders.OrderItem.New` | src/domain/orders/order.rs:42-52 | `OrderItem::new(d).split() == d` |
| `LegacyOrders.OrderItem.SplitThenNew` | src/domain/orders/order.rs:49-51 | `OrderItem::new(i.split()) == i`: `split` and `new` are inverses |
| `LegacyOrders.AnyRefers` | src/domain/orders/order.rs:55-57 | true exactly when some item has the product id |
| `LegacyOrders.AddItem` | src/domain/orders/order.rs:59-76 | fails with "product is already in order" exactly when the product is present. Otherwise appends exactly one item with id 1, the product id and price 1.0, keeping earlier items, and the product is then present |
| `LegacyOrders.AddItemKeepsDistinct` | src/domain/orders/order.rs:59-76 | a successful add keeps the items' product ids pairwise distinct |
| `LegacyOrders.OrderAggregate.ContainsProduct` | src/domain/orders/order.rs:55-57 | true exactly when some item refers to the product |
| `LegacyOrders.OrderAggregate.AddProduct` | src/domain/orders/order.rs:59-76 | the items become what `AddItem` gives, or are unchanged when it refuses. Afterwards the product is always contained, and distinct products stay distinct |

## Left out

- Lock poisoning of the product store, and the "not good!" error it produces: concurrency is not modelled. So `ProductStore.InMemoryStore.Get` and `Set` never fail.
  As a consequence, in the two product commands the propagation of a store error, and of a `set_title` error, is written out but cannot happen.
- The `RwLock` itself, `Arc` sharing, and the dependency resolvers: wiring with no domain logic.
- Transactions: `ActiveTransaction` is an opaque handle. The order store records it with each write; there is no atomicity or release semantics.
  The product store's `set` takes no transaction, so the set-title command's transaction is dropped.
- `Version`: its definition is not part of this model. It is a counter whose default is assumed to be 0. Nothing compares or advances it, and the shown code does not either.
- UUID generation, parsing, formatting and serde: these are foreign library calls.
- The `Hash` impl of `Id`: hashing plays no part in the domain logic.
- The order store's source (`orders/model/store.rs`) is not part of this model. Its map, its `readFault` and `writeFault` fields and its `set_line_item` behaviour are a minimal store for the command.
  A fault is fixed for a whole invocation: a store that fails one write and accepts the next is not modelled.
  `set_line_item` for an order the store does not hold gives "not found"; the command never reaches that case.
- `f32` prices: only copied, so a price is its 32-bit pattern. No float arithmetic or float comparison is modelled.
- The `Entity` trait impls and the `_private` fields: type-level only.
- Logging (`debug!`, `info!`).
- The `error` module is not part of this model. The model assumes `error::msg` and `error::bad_input` keep their text, and that `?` turns a `String` error into `error::msg` of the same text.
- `Customer`: only its id is read, so `CustomerData` holds only the id.
- `Orders.Order.IntoLineItemForProduct`: Rust moves the order into the result. Here the method returns the same object on `NotInOrder` and a fresh `OrderLineItem` on `InOrder`, and it modifies nothing.
  This captures run-to-run determinism of the classification, but not the ownership transfer.
- `AddOrUpdateProductCommand.AddOrUpdateKeepsDistinctProducts`: assumes the order's line-item ids are distinct. `set_line_item` overwrites every item with the written id, so a repeated line-item id could otherwise copy one product onto another item.
