/** The remote API as the models see it. The transport itself is not part of
    this model: each call records the request it would send, and the reply
    the server (or the network) gives is supplied by the caller. */
module Api {
  import opened Types

  /** A settled promise: resolved with a body, or rejected with an error. */
  datatype Reply<T> = Answered(body: T) | Failed(error: string)

  /** A request sent to the server. */
  datatype Request = Get(path: string) | Post(path: string, body: OrderRequest)

  class ApiClient {
    /** Every request sent so far, oldest first. */
    var sent: seq<Request>

    constructor ()
      ensures sent == []
    {
      sent := [];
    }

    /** `get(path)`: records the request and settles with `reply`. */
    method Get(path: string, reply: Reply<ProductListResponse>) returns (r: Reply<ProductListResponse>)
      modifies this
      ensures sent == old(sent) + [Request.Get(path)]
      ensures r == reply
    {
      sent := sent + [Request.Get(path)];
      r := reply;
    }

    /** `post(path, body)`: records the request and settles with `reply`. */
    method Post(path: string, body: OrderRequest, reply: Reply<OrderResponse>) returns (r: Reply<OrderResponse>)
      modifies this
      ensures sent == old(sent) + [Request.Post(path, body)]
      ensures r == reply
    {
      sent := sent + [Request.Post(path, body)];
      r := reply;
    }
  }
}
