/** The product catalogue's records (`ProductList/src/types/product.ts`). Prices, sales and
    stock are integers here; the floating-point `rating` is not part of this model. */
module ProductTypes {
  import opened Base

  /** One selectable dimension of a product, such as its colour, with the values offered. */
  datatype ProductSpec = ProductSpec(name: string, values: seq<string>)

  /** A stock-keeping unit: one combination of spec values with its own price and stock. The
      record `specs` maps a spec name to the value this unit has for it. */
  datatype ProductSku = ProductSku(
    id: string,
    specs: map<string, string>,
    price: int,
    stock: int,
    image: Option<string>)

  datatype Product = Product(
    id: string,
    name: string,
    price: int,
    originalPrice: Option<int>,
    image: string,
    images: Option<seq<string>>,
    category: string,
    sales: int,
    description: Option<string>,
    detailDescription: Option<string>,
    stock: int,
    specs: Option<seq<ProductSpec>>,
    skus: Option<seq<ProductSku>>)

  /** A JavaScript number as produced by `Number(text)`: an integer, or `NaN`. */
  datatype Num = Finite(value: int) | NaN

  /** `FilterParams`: each absent field is `undefined`. */
  datatype FilterParams = FilterParams(
    category: Option<string>,
    minPrice: Option<Num>,
    maxPrice: Option<Num>)

  const NoFilter: FilterParams := FilterParams(None, None, None)
}
