/** The catalog (src/models/ProductModel.ts). */
module Catalog {
  import opened Types
  import opened Api

  /** The path the catalog is fetched from. */
  const ProductPath: string := "/product/"

  /** The position of the first product with the given id, as
      `Array.prototype.find` scans. */
  function FindFirst(products: seq<Product>, id: string): (k: Option<nat>)
    ensures k.Some? ==> k.value < |products| && products[k.value].id == id
    ensures k.Some? ==> forall j :: 0 <= j < k.value ==> products[j].id != id
    ensures k.None? <==> forall j :: 0 <= j < |products| ==> products[j].id != id
  {
    if products == [] then None
    else if products[0].id == id then Some(0)
    else
      match FindFirst(products[1..], id)
      case None => None
      case Some(k) => Some(k + 1)
  }

  class ProductModel {
    const api: ApiClient
    var products: seq<Product>

    constructor (api: ApiClient)
      ensures this.api == api && products == []
    {
      this.api := api;
      products := [];
    }

    /** `fetchProducts`: one `GET /product/`; on success the list becomes
        the response's items, on failure it is left as it was and the
        error is passed on. */
    method FetchProducts(reply: Reply<ProductListResponse>) returns (r: Reply<()>)
      modifies this, api
      ensures api.sent == old(api.sent) + [Request.Get(ProductPath)]
      ensures reply.Answered? ==> products == reply.body.items && r == Answered(())
      ensures reply.Failed? ==> products == old(products) && r == Failed(reply.error)
    {
      var response := api.Get(ProductPath, reply);
      match response
      case Answered(data) =>
        products := data.items;
        r := Answered(());
      case Failed(error) =>
        r := Failed(error);
    }

    /** `getProductById`: the first product in list order with that id, or
        nothing exactly when no product has it. */
    function GetProductById(id: string): (r: Option<Product>)
      reads this
      ensures r.Some? ==> r.value.id == id
      ensures r.Some? ==> exists k :: 0 <= k < |products| && products[k] == r.value &&
                                     (forall j :: 0 <= j < k ==> products[j].id != id)
      ensures r == None <==> forall p :: p in products ==> p.id != id
    {
      match FindFirst(products, id)
      case Some(k) => Some(products[k])
      case None => None
    }
  }
}
