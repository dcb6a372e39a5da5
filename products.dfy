/**
 * The product entity (src/domain/products/model/mod.rs): plain data, an id and a title, held by
 * a `Product` whose title can be overwritten in place. In this snapshot product ids are `i32`.
 */
module Products {
  import opened Wrappers

  /** A Rust `i32`. */
  type I32 = x: int | -0x8000_0000 <= x < 0x8000_0000

  type ProductError = string

  datatype ProductData = ProductData(id: I32, title: string)

  /** The data of a product after its title is replaced by `title`. */
  function WithTitle(data: ProductData, title: string): (r: ProductData)
    ensures r.id == data.id && r.title == title
  {
    data.(title := title)
  }

  /** Setting the same title twice leaves the same data as setting it once. */
  lemma WithTitleIdempotent(data: ProductData, title: string)
    ensures WithTitle(WithTitle(data, title), title) == WithTitle(data, title)
  {
  }

  /** The last title set wins, and the id never changes. */
  lemma WithTitleOverrides(data: ProductData, first: string, second: string)
    ensures WithTitle(WithTitle(data, first), second) == WithTitle(data, second)
  {
  }

  class Product {
    var data: ProductData

    /** `Product::from_data`. */
    constructor FromData(data: ProductData)
      ensures this.data == data
    {
      this.data := data;
    }

    /** `Product::into_data`: the data `FromData` was given, with every later update applied. */
    function IntoData(): (d: ProductData)
      reads this
      ensures d.id == data.id && d.title == data.title
    {
      data
    }

    /** `Product::new`: always succeeds, with the given id and title. */
    static method New(id: I32, title: string) returns (r: Result<Product, ProductError>)
      ensures r.Ok? && fresh(r.value)
      ensures r.value.data == ProductData(id, title)
    {
      var product := new Product.FromData(ProductData(id, title));
      r := Ok(product);
    }

    /** `Product::set_title`: always succeeds; overwrites the title and keeps the id. */
    method SetTitle(title: string) returns (r: Result<Unit, ProductError>)
      modifies this
      ensures r == Ok(())
      ensures data == WithTitle(old(data), title)
    {
      data := data.(title := title);
      r := Ok(());
    }
  }

  /**
   * A client of `Product`: `into_data(from_data(d))` gives back `d`, and setting a title twice is
   * setting it once.
   */
  method FromDataSetTitleTwice(data: ProductData, title: string) returns (roundTrip: ProductData, d: ProductData)
    ensures roundTrip == data
    ensures d == WithTitle(data, title)
  {
    var product := new Product.FromData(data);
    roundTrip := product.IntoData();
    var _ := product.SetTitle(title);
    var _ := product.SetTitle(title);
    d := product.IntoData();
    WithTitleIdempotent(data, title);
  }
}
