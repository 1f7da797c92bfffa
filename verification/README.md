# Storefront checkout and basket models in Dafny

This project models the state-holding core of a single-page storefront (the
web-larek frontend): the checkout draft `OrderModel`, the shopping basket
`BasketModel`, the catalog `ProductModel` and the checkout presenter
`OrderPresenter`, and proves what they promise about validation, payloads,
basket totals and lookups.

Files, one module each:

- `types.dfy` (`Types`): the shapes of `src/types/index.ts` (product with a
  nullable price, payment method, order request, order response, product list).
- `text.dfy` (`Text`): JavaScript's `String.prototype.trim`, with the exact set
  of white-space and line-terminator characters it removes, characterised as
  "blank prefix + result + blank suffix".
- `api.dfy` (`Api`): the API client as the models see it. A call records the
  request it sends (`sent`), and the settled reply is a parameter.
- `order_model.dfy` (`Orders`): the checkout draft as a class with its six
  fields. The setters and `Reset` are methods; the step validations and the
  payload are functions over the fields.
- `basket_model.dfy` (`Basket`): the basket as a class whose `items` field is the
  insertion-ordered sequence of `{product, quantity}` entries with unique ids.
  Specification functions (`Added`, `Removed`, `Built`, `Total`, `ItemCount`)
  describe the map operations, and lemmas relate them. `GetTotal` and
  `GetItemCount` are accumulation loops proved against `Total` and `ItemCount`.
- `order_presenter.dfy` (`Presenters`): the presenter routes field changes into
  the draft, reports the per-step error messages and guards submission.
- `product_model.dfy` (`Catalog`): first-match lookup and the state effect of a
  catalog fetch.

The model follows the code on three points where a stricter policy could be expected:

- `addProduct` does not reject null-priced products. Such an entry counts in
  `getItemCount` and adds nothing to `getTotal`.
- The basket counts multiplicity only: a repeated add raises the quantity.
- A failed catalog fetch leaves the product list as it was. The list is not
  emptied.

## Model

| member | source | states |
|---|---|---|
| `Text.Trim` | src/models/OrderModel.ts:69-71 | `trim()`: the input is a blank prefix, then the result, then a blank suffix; the result neither starts nor ends with white space; it is empty exactly when the input is blank |
| `Text.TrimIdempotent` | src/models/OrderModel.ts:69-71 | trimming an already trimmed string changes nothing |
| `Orders.OrderModel.constructor` | src/models/OrderModel.ts:9-18 | a new draft has no payment, empty address/email/phone, no items and total 0; both steps are invalid and there is no payload |
| `Orders.OrderModel.SetPayment` | src/models/OrderModel.ts:21-23 | stores the payment method; every other field is unchanged |
| `Orders.OrderModel.SetAddress` | src/models/OrderModel.ts:24-26 | stores the address untrimmed; every other field is unchanged |
| `Orders.OrderModel.SetContacts` | src/models/OrderModel.ts:27-30 | stores exactly email and phone, untrimmed; every other field is unchanged |
| `Orders.OrderModel.SetItems` | src/models/OrderModel.ts:31-33 | stores the item ids; every other field is unchanged |
| `Orders.OrderModel.SetTotal` | src/models/OrderModel.ts:34-36 | stores the total; every other field is unchanged |
| `Orders.OrderModel.ValidateStep1` | src/models/OrderModel.ts:53-55 | holds iff a payment is chosen and the address has a non-white-space character, so a whitespace-only address fails |
| `Orders.OrderModel.ValidateStep2` | src/models/OrderModel.ts:56-58 | holds iff email and phone each have a non-white-space character; no format check |
| `Orders.OrderModel.GetOrderData` | src/models/OrderModel.ts:63-75 | absent iff either step is invalid; otherwise it carries the payment, the trimmed email/phone/address (none blank, none with surrounding white space) and the total and items last set |
| `Orders.OrderModel.SubmitOrder` | src/models/OrderModel.ts:80-91 | with no payload it rejects with `Ошибка` and sends nothing; otherwise it posts exactly the payload to `/order` once and passes the reply or error on unchanged; the draft is not modified |
| `Orders.OrderModel.Reset` | src/models/OrderModel.ts:96-103 | from any state, restores every field to its initial value; afterwards both steps are invalid and there is no payload |
| `Basket.IndexOf` | src/models/BasketModel.ts:23-24 | `has`/`get`: finds a position holding the id, and finds none iff no entry has that id |
| `Basket.Added` | src/models/BasketModel.ts:22-29 | a present id keeps its position and stored product and has its quantity raised by 1; every other entry is unchanged; a new id is appended with quantity 1; keys stay unique |
| `Basket.Removed` | src/models/BasketModel.ts:31-33 | the result holds only entries of the input, none keyed by the id, and keeps every entry with another id |
| `Basket.SetLookup` | src/models/BasketModel.ts:14-17 | `Map.set` keeps keys unique, answers the new value for its key and leaves every other key's value alone |
| `Basket.BuiltLookup` | src/models/BasketModel.ts:10-19 | the constructor keys entries by product id; an id given more than once keeps the last item given |
| `Basket.AddProductCount` | src/models/BasketModel.ts:22-29 | each add raises the item count by exactly 1 |
| `Basket.AddProductTotal` | src/models/BasketModel.ts:22-29 | each add raises the total by the price of the product stored under that id (the earlier record when present); a null price adds 0 |
| `Basket.RemovedAbsent` | src/models/BasketModel.ts:31-33 | removing an absent id changes nothing |
| `Basket.RemovedIdempotent` | src/models/BasketModel.ts:31-33 | removing the same id twice is removing it once |
| `Basket.RemoveProductEntries` | src/models/BasketModel.ts:31-33 | removing an entry's id leaves the entries before and after it, in order |
| `Basket.RemovedDistinct` | src/models/BasketModel.ts:31-33 | removal keeps keys unique |
| `Basket.RemoveProductTotals` | src/models/BasketModel.ts:31-33 | removing an entry lowers the total by its line total and the count by its quantity |
| `Basket.AddThenRemove` | src/models/BasketModel.ts:22-33 | for an id not in the basket, adding then removing it restores the entries, total and count |
| `Basket.BasketModel.constructor` | src/models/BasketModel.ts:10-20 | the entries are the initial items `set` one by one under their ids; keys are unique |
| `Basket.BasketModel.AddProduct` | src/models/BasketModel.ts:22-29 | the entries become `Added` of the old entries |
| `Basket.BasketModel.RemoveProduct` | src/models/BasketModel.ts:31-33 | the entries become `Removed` of the old entries |
| `Basket.BasketModel.ClearBasket` | src/models/BasketModel.ts:35-37 | the basket is empty; total and count are 0 |
| `Basket.BasketModel.GetTotal` | src/models/BasketModel.ts:39-47 | the loop returns the sum of price times quantity over the entries, null prices contributing 0 |
| `Basket.BasketModel.GetItemCount` | src/models/BasketModel.ts:49-53 | the loop returns the sum of the quantities |
| `Presenters.ParsePayment` | src/presenters/OrderPresenter.ts:18-19 | accepts exactly `online` and `cash`, and returns the method with that wire name |
| `Presenters.ParsePaymentName` | src/presenters/OrderPresenter.ts:18-19 | every payment method's wire name is accepted and parses back to that method |
| `Presenters.OrderPresenter.constructor` | src/presenters/OrderPresenter.ts:7-9 | holds the given order model |
| `Presenters.OrderPresenter.OnPaymentInputChanged` | src/presenters/OrderPresenter.ts:16-24 | `payment` sets the payment only for `online`/`cash`; `address` sets the address; any other field or value changes nothing; contacts, items and total are never touched |
| `Presenters.OrderPresenter.GetPaymentError` | src/presenters/OrderPresenter.ts:30-38 | a missing payment is reported before a blank address; the text is empty iff step 1 is valid |
| `Presenters.OrderPresenter.OnContactInputChanged` | src/presenters/OrderPresenter.ts:45-51 | `email` changes only the email and keeps the phone, `phone` the reverse; other field names change nothing |
| `Presenters.OrderPresenter.GetContactError` | src/presenters/OrderPresenter.ts:57-65 | a blank email is reported before a blank phone; the text is empty iff step 2 is valid |
| `Presenters.OrderPresenter.SubmitOrder` | src/presenters/OrderPresenter.ts:71-77 | with no payload it fails with `Ошибка.` and sends nothing; otherwise the order model posts the payload and its outcome is returned |
| `Catalog.FindFirst` | src/models/ProductModel.ts:33 | finds the first position holding the id, and finds none iff no product has it |
| `Catalog.ProductModel.constructor` | src/models/ProductModel.ts:4-13 | the catalog starts empty |
| `Catalog.ProductModel.FetchProducts` | src/models/ProductModel.ts:18-26 | sends one `GET /product/`; on success the list becomes the response's items; on failure it is unchanged and the error is passed on |
| `Catalog.ProductModel.GetProductById` | src/models/ProductModel.ts:32-34 | returns a product with that id, the first in list order; returns nothing iff no product has that id; reads the list only |

## Left out

- Views, modal chrome, the header badge and `src/index.ts` hold no decision logic.
  They are not part of this model.
- `src/presenters/BasketPresenter.ts` only forwards to the basket and builds DOM.
  It is not part of this model.
- `src/utils/constants.ts` only holds URLs and selectors. It is not part of this model.
- The API client class behind `IApiClient`, with its HTTP transport and JSON parsing,
  is not part of this model. `Api.ApiClient.Get` and `Api.ApiClient.Post` stand in
  for it: each records its request in the log `sent` and settles with a reply the
  caller passes in.
- Rejection reasons are modelled as their message strings. The presenter throws an
  `Error` object, the order model rejects with a bare string, and a transport error
  is opaque; `Api.Reply.Failed` holds the message in all three cases.
- Promises and await are not modelled. Each call settles at once, so overlapping
  submissions and late replies are not modelled.
- Prices, quantities and totals are integers, not floating-point numbers, so rounding
  and NaN are not modelled.
- Values are not shared between objects:
  - `setItems` stores the caller's array by reference, and `getOrderData` hands out
    that same array.
  - `item.quantity++` updates a stored entry in place.
  - `items` is public and `BasketPresenter` reads its entries, but no code outside
    `BasketModel` writes to an entry. So the in-place `quantity++` and the model's
    value update give the same result.
- `Basket.Removed`: it drops every entry with the id, while `Map.delete` drops the one
  entry under that key. The two agree because keys are unique, which every basket
  method keeps.
- The getters of `OrderModel` are plain field reads without contracts.
- `Catalog.ProductModel.FetchProducts`: the `total` field of the product list
  response is ignored, as in the source.
- `Presenters.OrderPresenter.SubmitOrder`: the source declares the result as an
  order request, but it passes on the server's reply. The model passes on the
  reply too.
