/**
 * The in-memory product store (src/domain/products/model/store.rs): a map from product id to
 * product data. `get` hands out a fresh `Product` over a copy of the stored data; `set` inserts
 * the product's data under its own id, replacing any earlier entry.
 */
module ProductStore {
  import opened Wrappers
  import opened Products

  type StoreError = string

  class InMemoryStore {
    var products: map<I32, ProductData>
    /** Every product handed to `Set`, oldest first: the store's write history. */
    ghost var written: seq<ProductData>

    /** Every entry is filed under its own id, as `Set` files it. */
    ghost predicate Valid()
      reads this
    {
      forall id | id in products :: products[id].id == id
    }

    /** `in_memory_store()`: an empty store. */
    constructor ()
      ensures Valid()
      ensures products == map[] && written == []
    {
      products := map[];
      written := [];
    }

    /**
     * `ProductStore::get`: the stored product, or `None` when there is none; nothing changes.
     * What it finds is `Lookup(products, id)`.
     */
    method Get(id: I32) returns (r: Result<Option<Product>, StoreError>)
      ensures r.Ok?
      ensures r.value.None? <==> Lookup(products, id).None?
      ensures r.value.Some? ==> fresh(r.value.value) && Some(r.value.value.data) == Lookup(products, id)
    {
      if id in products {
        var product := new Product.FromData(products[id]);
        r := Ok(Some(product));
      } else {
        r := Ok(None);
      }
    }

    /** `ProductStore::set`: files the product's data under its id, leaving every other entry alone. */
    method Set(product: Product) returns (r: Result<Unit, StoreError>)
      requires Valid()
      modifies this
      ensures Valid()
      ensures r == Ok(())
      ensures products == old(products)[product.data.id := product.data]
      ensures written == old(written) + [product.data]
    {
      var data := product.IntoData();
      products := products[data.id := data];
      written := written + [data];
      r := Ok(());
    }
  }

  /** The data `get` finds for an id in a store holding `products`. */
  function Lookup(products: map<I32, ProductData>, id: I32): Option<ProductData>
  {
    if id in products then Some(products[id]) else None
  }

  /**
   * After `set(p)`, `get(p.id)` finds `p`'s data, and every other id finds what it found before:
   * `Set` leaves `products[p.id := p]`, and what `Get` finds is `Lookup` of the products.
   */
  lemma LookupAfterSet(products: map<I32, ProductData>, data: ProductData, id: I32)
    ensures Lookup(products[data.id := data], id) == if id == data.id then Some(data) else Lookup(products, id)
  {
  }

  /** A client of the store: a fresh store is empty, and `get` after `set` returns what was set. */
  method SetThenGet(data: ProductData) returns (found: Option<ProductData>, missing: bool)
    ensures found == Some(data)
    ensures missing
  {
    var store := new InMemoryStore();
    var before := store.Get(data.id);
    missing := before.Ok? && before.value.None?;
    var product := new Product.FromData(data);
    var _ := store.Set(product);
    var after := store.Get(data.id);
    found := if after.Ok? && after.value.Some? then Some(after.value.value.data) else None;
  }
}
