/** The checkout presenter (src/presenters/OrderPresenter.ts): routes field
    changes into the order model and reports what each step still lacks. */
module Presenters {
  import opened Types
  import opened Text
  import opened Api
  import opened Orders

  const ChoosePaymentMessage: string := "Выберите способ оплаты."
  const EnterAddressMessage: string := "Введите адрес доставки."
  const EnterEmailMessage: string := "Введите email."
  const EnterPhoneMessage: string := "Введите телефон."
  /** The reason the presenter's `submitOrder` fails with on an incomplete draft. */
  const IncompleteDraftMessage: string := "Ошибка."

  /** Accepts exactly the wire names of the payment methods. */
  function ParsePayment(value: string): (r: Option<Payment>)
    ensures r.Some? <==> value == "online" || value == "cash"
    ensures r.Some? ==> PaymentName(r.value) == value
  {
    if value == "online" then Some(Online)
    else if value == "cash" then Some(Cash)
    else None
  }

  /** Parsing the wire name of a payment method gives that method back. */
  lemma ParsePaymentName(p: Payment)
    ensures ParsePayment(PaymentName(p)) == Some(p)
  {
  }

  class OrderPresenter {
    const orderModel: OrderModel

    constructor (orderModel: OrderModel)
      ensures this.orderModel == orderModel
    {
      this.orderModel := orderModel;
    }

    /** A change on the payment step. `payment` takes only `online` or
        `cash`; `address` takes any text; anything else changes nothing. */
    method OnPaymentInputChanged(field: string, value: string)
      modifies orderModel
      ensures field == "payment" && ParsePayment(value).Some? ==>
        orderModel.payment == ParsePayment(value)
      ensures !(field == "payment" && ParsePayment(value).Some?) ==>
        orderModel.payment == old(orderModel.payment)
      ensures orderModel.address == if field == "address" then value else old(orderModel.address)
      ensures orderModel.email == old(orderModel.email) && orderModel.phone == old(orderModel.phone)
      ensures orderModel.items == old(orderModel.items) && orderModel.total == old(orderModel.total)
    {
      if field == "payment" {
        var payment := ParsePayment(value);
        if payment.Some? {
          orderModel.SetPayment(payment.value);
        }
      } else if field == "address" {
        orderModel.SetAddress(value);
      }
    }

    /** The payment step's error: the missing payment is reported before
        the missing address, and the text is empty exactly when step 1 is
        complete. */
    function GetPaymentError(): (r: string)
      reads orderModel
      ensures r == "" <==> orderModel.ValidateStep1()
      ensures orderModel.payment == None ==> r == ChoosePaymentMessage
      ensures orderModel.payment.Some? && Blank(orderModel.address) ==> r == EnterAddressMessage
    {
      if orderModel.GetPayment() == None then ChoosePaymentMessage
      else if Trim(orderModel.GetAddress()) == [] then EnterAddressMessage
      else ""
    }

    /** A change on the contacts step: `email` and `phone` each replace
        only their own field; anything else changes nothing. */
    method OnContactInputChanged(field: string, value: string)
      modifies orderModel
      ensures orderModel.email == if field == "email" then value else old(orderModel.email)
      ensures orderModel.phone == if field == "phone" then value else old(orderModel.phone)
      ensures orderModel.payment == old(orderModel.payment)
      ensures orderModel.address == old(orderModel.address)
      ensures orderModel.items == old(orderModel.items) && orderModel.total == old(orderModel.total)
    {
      if field == "email" {
        orderModel.SetContacts(value, orderModel.GetPhone());
      } else if field == "phone" {
        orderModel.SetContacts(orderModel.GetEmail(), value);
      }
    }

    /** The contacts step's error: the missing email is reported before the
        missing phone, and the text is empty exactly when step 2 is
        complete. */
    function GetContactError(): (r: string)
      reads orderModel
      ensures r == "" <==> orderModel.ValidateStep2()
      ensures Blank(orderModel.email) ==> r == EnterEmailMessage
      ensures !Blank(orderModel.email) && Blank(orderModel.phone) ==> r == EnterPhoneMessage
    {
      if Trim(orderModel.GetEmail()) == [] then EnterEmailMessage
      else if Trim(orderModel.GetPhone()) == [] then EnterPhoneMessage
      else ""
    }

    /** `submitOrder`: an incomplete draft fails here, before the model's
        `submitOrder` and the server are reached; otherwise the model's
        outcome is passed on. */
    method SubmitOrder(reply: Reply<OrderResponse>) returns (r: Reply<OrderResponse>)
      modifies orderModel.api
      ensures old(orderModel.GetOrderData()) == None ==>
        r == Failed(IncompleteDraftMessage) && orderModel.api.sent == old(orderModel.api.sent)
      ensures old(orderModel.GetOrderData()).Some? ==>
        orderModel.api.sent ==
          old(orderModel.api.sent) + [Request.Post(OrderPath, old(orderModel.GetOrderData()).value)] &&
        r == reply
    {
      var orderData := orderModel.GetOrderData();
      if orderData == None {
        return Failed(IncompleteDraftMessage);
      }
      r := orderModel.SubmitOrder(reply);
    }
  }
}
