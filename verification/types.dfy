/** The data shapes shared by the storefront's models (src/types/index.ts). */
module Types {

  /** `null` / `undefined` in the source become None. */
  datatype Option<T> = None | Some(value: T)

  /** A catalog product. A price of None is the source's `price: null`
      ("priceless"); prices are whole numbers in this model. */
  datatype Product = Product(
    id: string,
    description: string,
    image: string,
    title: string,
    category: string,
    price: Option<int>)

  /** The body of `GET /product/`. */
  datatype ProductListResponse = ProductListResponse(total: int, items: seq<Product>)

  /** The closed set of payment methods `'online' | 'cash'`. */
  datatype Payment = Online | Cash

  /** The wire spelling of a payment method. */
  function PaymentName(p: Payment): string
  {
    match p
    case Online => "online"
    case Cash => "cash"
  }

  /** The body of `POST /order`; `items` are product identifiers. */
  datatype OrderRequest = OrderRequest(
    payment: Payment,
    email: string,
    phone: string,
    address: string,
    total: int,
    items: seq<string>)

  /** The two shapes the server answers `POST /order` with. */
  datatype OrderResponse =
    | OrderSuccess(id: string, total: int)
    | OrderError(error: string)
}
