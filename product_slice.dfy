/** productSlice.ts: the product entity and its store slice. */
module ProductSlice {
  import opened Wrappers
  import opened Pricing
  import EntitySlice

  /** A product as the store caches it. */
  datatype Product = Product(
    id: Option<string>,
    name: string,
    image: string,
    brand: string,
    category: string,
    description: string,
    basePrice: real,
    profitPercentage: real,
    priceWithProfit: Option<real>,
    taxes: seq<Tax>,
    finalPrice: Option<real>,
    stock: int,
    sku: string,
    status: string,
    dimensions: Option<string>,
    weight: Option<string>)

  /** The body the product pages send to `createProduct` / `updateProduct`. */
  datatype ProductData = ProductData(
    name: string,
    image: string,
    brand: string,
    category: string,
    description: string,
    basePrice: Option<real>,
    profitPercentage: Option<real>,
    taxes: seq<Tax>,
    stock: Option<int>,
    sku: string,
    status: string,
    dimensions: string,
    weight: string)

  function ProductId(p: Product): Option<string> { p.id }

  /** The slice's `initialState`. */
  method NewProductSlice() returns (s: EntitySlice.Slice<Product>)
    ensures fresh(s)
    ensures forall p :: s.idOf(p) == p.id
    ensures s.items == [] && s.current == None && !s.loading && s.error == None && !s.success
  {
    s := new EntitySlice.Slice(ProductId);
  }
}
