/** The checkout draft (src/models/OrderModel.ts). */
module Orders {
  import opened Types
  import opened Text
  import opened Api

  /** The reason `submitOrder` rejects an incomplete draft with. */
  const IncompleteOrder: string := "Ошибка"

  /** The path orders are posted to. */
  const OrderPath: string := "/order"

  class OrderModel {
    const api: ApiClient

    var payment: Option<Payment>
    var address: string
    var email: string
    var phone: string
    var items: seq<string>
    var total: int

    /** The field values of a new draft, which `reset` restores. */
    predicate IsInitial()
      reads this
    {
      payment == None && address == "" && email == "" && phone == "" &&
      items == [] && total == 0
    }

    constructor (api: ApiClient)
      ensures this.api == api && IsInitial()
      ensures !ValidateStep1() && !ValidateStep2() && GetOrderData() == None
    {
      this.api := api;
      payment := None;
      address := "";
      email := "";
      phone := "";
      items := [];
      total := 0;
    }

    method SetPayment(payment: Payment)
      modifies this
      ensures this.payment == Some(payment)
      ensures address == old(address) && email == old(email) && phone == old(phone)
      ensures items == old(items) && total == old(total)
    {
      this.payment := Some(payment);
    }

    method SetAddress(address: string)
      modifies this
      ensures this.address == address
      ensures payment == old(payment) && email == old(email) && phone == old(phone)
      ensures items == old(items) && total == old(total)
    {
      this.address := address;
    }

    method SetContacts(email: string, phone: string)
      modifies this
      ensures this.email == email && this.phone == phone
      ensures payment == old(payment) && address == old(address)
      ensures items == old(items) && total == old(total)
    {
      this.email := email;
      this.phone := phone;
    }

    method SetItems(itemIds: seq<string>)
      modifies this
      ensures items == itemIds
      ensures payment == old(payment) && address == old(address)
      ensures email == old(email) && phone == old(phone) && total == old(total)
    {
      items := itemIds;
    }

    method SetTotal(total: int)
      modifies this
      ensures this.total == total
      ensures payment == old(payment) && address == old(address)
      ensures email == old(email) && phone == old(phone) && items == old(items)
    {
      this.total := total;
    }

    function GetPayment(): Option<Payment>
      reads this
    {
      payment
    }

    function GetAddress(): string
      reads this
    {
      address
    }

    function GetEmail(): string
      reads this
    {
      email
    }

    function GetPhone(): string
      reads this
    {
      phone
    }

    /** Step 1 (payment and delivery) is complete: a payment method is
        chosen and the address has a character that is not white space. */
    predicate ValidateStep1()
      reads this
      ensures ValidateStep1() <==> payment.Some? && !Blank(address)
    {
      payment.Some? && Trim(address) != []
    }

    /** Step 2 (contacts) is complete: email and phone each have a character
        that is not white space. Their format is not checked. */
    predicate ValidateStep2()
      reads this
      ensures ValidateStep2() <==> !Blank(email) && !Blank(phone)
    {
      Trim(email) != [] && Trim(phone) != []
    }

    /** The submission payload: absent unless both steps are complete, and
        then the chosen payment, the trimmed contacts and address (none of
        them blank) and the total and items as last set. */
    function GetOrderData(): (r: Option<OrderRequest>)
      reads this
      ensures r == None <==> !ValidateStep1() || !ValidateStep2()
      ensures r.Some? ==>
        Some(r.value.payment) == payment &&
        r.value.email == Trim(email) && r.value.phone == Trim(phone) &&
        r.value.address == Trim(address) &&
        r.value.total == total && r.value.items == items
      ensures r.Some? ==>
        r.value.email != [] && r.value.phone != [] && r.value.address != [] &&
        Trim(r.value.email) == r.value.email && Trim(r.value.phone) == r.value.phone &&
        Trim(r.value.address) == r.value.address
    {
      if !ValidateStep1() || !ValidateStep2() then None
      else
        TrimIdempotent(email);
        TrimIdempotent(phone);
        TrimIdempotent(address);
        Some(OrderRequest(payment.value, Trim(email), Trim(phone), Trim(address), total, items))
    }

    /** `submitOrder`: an incomplete draft is rejected without contacting the
        server; otherwise the payload is posted to `/order` and the server's
        reply, or the transport error, is passed on unchanged. The draft
        itself is not touched. */
    method SubmitOrder(reply: Reply<OrderResponse>) returns (r: Reply<OrderResponse>)
      modifies api
      ensures payment == old(payment) && address == old(address)
      ensures email == old(email) && phone == old(phone)
      ensures items == old(items) && total == old(total)
      ensures old(GetOrderData()) == None ==>
        r == Failed(IncompleteOrder) && api.sent == old(api.sent)
      ensures old(GetOrderData()).Some? ==>
        api.sent == old(api.sent) + [Request.Post(OrderPath, old(GetOrderData()).value)] &&
        r == reply
    {
      var orderData := GetOrderData();
      assert this as object != api as object;
      if orderData == None {
        r := Failed(IncompleteOrder);
      } else {
        r := api.Post(OrderPath, orderData.value, reply);
      }
    }

    /** `reset`: back to the initial draft from any state, which is invalid
        on both steps and has no payload. */
    method Reset()
      modifies this
      ensures IsInitial()
      ensures !ValidateStep1() && !ValidateStep2() && GetOrderData() == None
    {
      payment := None;
      address := "";
      email := "";
      phone := "";
      items := [];
      total := 0;
    }
  }
}
