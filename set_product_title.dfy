/**
 * The set-product-title command (src/domain/products/commands/set_product_title.rs): read the
 * product, fail with "not found" when there is none, replace its title in place and write it back.
 */
module SetProductTitleCommand {
  import opened Wrappers
  import opened Domain
  import opened Products
  import opened ProductStore

  /** Input of the command. */
  datatype SetProductTitle = SetProductTitle(id: I32, title: string)

  /** The closure `set_product_title_command(transaction, store)` returns, with the store it captures. */
  class SetProductTitleCommand {
    const store: InMemoryStore

    constructor (store: InMemoryStore)
      ensures this.store == store
    {
      this.store := store;
    }

    /**
     * `SetProductTitleCommand::set_product_title`. A missing product is `Err(msg("not found"))`
     * with nothing written; otherwise the stored product takes the new title, keeps its id, and
     * exactly one write happened.
     */
    method SetProductTitle(command: SetProductTitle) returns (r: Result<Unit, Error>)
      requires store.Valid()
      modifies store
      ensures store.Valid()
      ensures old(command.id !in store.products) ==>
        r == Err(Msg("not found")) && store.products == old(store.products) && store.written == old(store.written)
      ensures old(command.id in store.products) ==>
        && r == Ok(())
        && store.products == old(store.products)[command.id := WithTitle(old(store.products[command.id]), command.title)]
        && store.written == old(store.written) + [WithTitle(old(store.products[command.id]), command.title)]
    {
      var found := store.Get(command.id);
      var product: Product;
      match found {
        case Err(e) => return Err(Msg(e));
        case Ok(None) => return Err(Msg("not found"));
        case Ok(Some(p)) => product := p;
      }
      var titled := product.SetTitle(command.title);
      match titled {
        case Err(e) => return Err(Msg(e));
        case Ok(_) =>
      }
      var written := store.Set(product);
      match written {
        case Err(e) => return Err(Msg(e));
        case Ok(_) => r := Ok(());
      }
    }
  }
}
