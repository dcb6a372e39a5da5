/**
 * The set-product command (src/domain/products/commands/set_product.rs): an upsert. It reads the
 * product; if it exists its title is replaced in place, otherwise a new product is built; either
 * way the result is written back, and the command returns what the write returns.
 */
module SetProductCommand {
  import opened Wrappers
  import opened Products
  import opened ProductStore

  type CommandError = string

  /** Input of the command. */
  datatype SetProduct = SetProduct(id: I32, title: string)

  /** The closure `set_product_command(store)` returns, with the store it captures. */
  class SetProductCommand {
    const store: InMemoryStore

    constructor (store: InMemoryStore)
      ensures this.store == store
    {
      this.store := store;
    }

    /**
     * `SetProductCommand::set_product`. Afterwards the store maps `command.id` to a product with
     * that id and `command.title` (an existing product keeps its id and takes the new title),
     * every other entry is as before, and exactly one product was written.
     */
    method SetProduct(command: SetProduct) returns (r: Result<Unit, CommandError>)
      requires store.Valid()
      modifies store
      ensures store.Valid()
      ensures r == Ok(())
      ensures old(command.id in store.products) ==>
        command.id in store.products && store.products[command.id] == WithTitle(old(store.products[command.id]), command.title)
      ensures store.products == old(store.products)[command.id := ProductData(command.id, command.title)]
      ensures store.written == old(store.written) + [ProductData(command.id, command.title)]
    {
      var found := store.Get(command.id);
      var product: Product;
      match found {
        case Err(e) => return Err(e);
        case Ok(Some(existing)) =>
          product := existing;
          var titled := product.SetTitle(command.title);
          match titled {
            case Err(e) => return Err(e);
            case Ok(_) =>
          }
        case Ok(None) =>
          var created := Product.New(command.id, command.title);
          match created {
            case Err(e) => return Err(e);
            case Ok(p) => product := p;
          }
      }
      r := store.Set(product);
    }
  }
}
