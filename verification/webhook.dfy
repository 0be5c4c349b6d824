/** The `POST /webhooks/shopify-order-updated` handler as a pure function of
    the webhook payload and the upstream order fetch it makes. */
module Webhook {
  import opened JsValues
  import PhoneDigits
  import SmsTemplate

  /** The gateway name that marks a Shopify Payments (Multibanco) order. */
  const ShopifyPayments: string := "shopify_payments"

  /** The status the handler acknowledges every delivery with. */
  const AckStatus: int := 200

  datatype Customer = Customer(phone: Field)
  datatype Address = Address(phone: Field)

  /** The order as delivered in the webhook body. `customer` and
      `shippingAddress` are `None` when missing or `null`. */
  datatype Order = Order(
    id: string,
    paymentGatewayNames: Option<seq<string>>,
    phone: Field,
    customer: Option<Customer>,
    shippingAddress: Option<Address>)

  /** The payment receipt a transaction may carry. */
  datatype Receipt = Receipt(entity: Field, reference: Field, amount: Field)

  /** `receipt` is `None` when missing or `null`. */
  datatype Transaction = Transaction(receipt: Option<Receipt>)

  /** The `order` object of the upstream response; `transactions` is `None`
      when missing or `null`. */
  datatype FetchedOrder = FetchedOrder(transactions: Option<seq<Transaction>>)

  /** What the upstream fetch yields: no response at all (the request rejects,
      as on a DNS failure or a refused or reset connection), or a response
      with its HTTP status and, when the body parses as JSON with an `order`
      object, that object. */
  datatype UpstreamResult =
    | Unreachable
    | Responded(status: int, body: Option<FetchedOrder>)

  /** The JSON body posted to the SMS gateway. */
  datatype Sms = Sms(to: seq<string>, from: string, message: string)

  /** How one delivery of the webhook ends. */
  datatype Outcome =
    | Ignored                 // not a Shopify Payments order
    | FetchFailed(status: int) // upstream answered with a non-2xx status
    | Aborted                 // no upstream response, or a body without an `order` object: the catch-all swallows the error
    | NoReference             // no transaction carries a Multibanco reference yet
    | NoPhone                 // no phone on the order, its customer or its shipping address
    | SendSms(sms: Sms)

  /** Everything the handler sends out, in order. */
  datatype Action = Acknowledge(status: int) | FetchOrder(orderId: string) | PostSms(sms: Sms)

  /** `payment_gateway_names?.includes("shopify_payments")`. */
  predicate Eligible(order: Order) {
    order.paymentGatewayNames.Some? && ShopifyPayments in order.paymentGatewayNames.value
  }

  /** `Response.ok`: a response whose status is in the range 200-299. */
  predicate IsOk(response: UpstreamResult) {
    response.Responded? && 200 <= response.status <= 299
  }

  /** `data.order.transactions || []`. */
  function TransactionsOrEmpty(fetched: FetchedOrder): seq<Transaction> {
    match fetched.transactions
    case None => []
    case Some(ts) => ts
  }

  /** `t.receipt && t.receipt.multibanco_reference` is truthy. */
  predicate HasReference(t: Transaction) {
    t.receipt.Some? && Truthy(t.receipt.value.reference)
  }

  /** `transactions.find(HasReference)`, as the index of the match. */
  function FindReference(ts: seq<Transaction>): (r: Option<nat>)
    ensures r.Some? ==> r.value < |ts| && HasReference(ts[r.value])
    ensures r.Some? ==> forall j :: 0 <= j < r.value ==> !HasReference(ts[j])
    ensures r.None? <==> forall j :: 0 <= j < |ts| ==> !HasReference(ts[j])
  {
    if ts == [] then None
    else if HasReference(ts[0]) then Some(0)
    else match FindReference(ts[1..])
      case None => None
      case Some(k) => Some(k + 1)
  }

  /** `order.customer?.phone`. */
  function CustomerPhone(order: Order): Field {
    match order.customer
    case None => Undefined
    case Some(c) => c.phone
  }

  /** `order.shipping_address?.phone`. */
  function ShippingPhone(order: Order): Field {
    match order.shippingAddress
    case None => Undefined
    case Some(a) => a.phone
  }

  /** The phone sources in the order the handler consults them. */
  function PhoneSources(order: Order): seq<Field> {
    [order.phone, CustomerPhone(order), ShippingPhone(order)]
  }

  /** Every field before position `i` is absent or empty. */
  predicate FalsyBefore(fs: seq<Field>, i: nat)
    requires i <= |fs|
  {
    forall j :: 0 <= j < i ==> !Truthy(fs[j])
  }

  /** `order.phone || order.customer?.phone || order.shipping_address?.phone`:
      the first truthy source; a later source is consulted only when every
      earlier one is absent or empty. */
  function SelectPhone(order: Order): (p: Field)
    ensures Truthy(p) <==> exists i :: 0 <= i < 3 && Truthy(PhoneSources(order)[i])
    ensures Truthy(p) ==>
              exists i :: 0 <= i < 3 && p == PhoneSources(order)[i] && FalsyBefore(PhoneSources(order), i)
  {
    var sources := PhoneSources(order);
    assert sources[0] == order.phone && sources[1] == CustomerPhone(order) && sources[2] == ShippingPhone(order);
    Or(Or(order.phone, CustomerPhone(order)), ShippingPhone(order))
  }

  /** The template values of a receipt, rendered as template literals render them. */
  function ReceiptFields(r: Receipt): SmsTemplate.Fields {
    SmsTemplate.Fields(Interpolate(r.entity), Interpolate(r.reference), Interpolate(r.amount))
  }

  /** The request body for the SMS gateway. */
  function BuildSms(phone: string, r: Receipt): Sms {
    Sms([PhoneDigits.StripNonDigits(phone)], SmsTemplate.Sender, SmsTemplate.Message(ReceiptFields(r)))
  }

  /** The decision the handler takes after acknowledging a delivery. */
  function Decide(order: Order, response: UpstreamResult): Outcome {
    if !Eligible(order) then Ignored
    else match response
      case Unreachable => Aborted
      case Responded(status, body) =>
        if !IsOk(response) then FetchFailed(status)
        else DecideFetched(order, body)
  }

  /** The decision once the upstream answered with a 2xx status. */
  function DecideFetched(order: Order, body: Option<FetchedOrder>): Outcome {
    match body
      case None => Aborted
      case Some(fetched) =>
        var ts := TransactionsOrEmpty(fetched);
        match FindReference(ts)
        case None => NoReference
        case Some(i) =>
          var phone := SelectPhone(order);
          if !Truthy(phone) then NoPhone
          else SendSms(BuildSms(phone.text, ts[i].receipt.value))
  }

  /** The number of SMS posts in a trace. */
  function SmsCount(trace: seq<Action>): nat {
    if trace == [] then 0
    else (if trace[0].PostSms? then 1 else 0) + SmsCount(trace[1..])
  }

  /** The outbound actions of one delivery: the acknowledgement, then (for an
      eligible order) the upstream fetch, then at most one SMS post. */
  function Run(order: Order, response: UpstreamResult): (trace: seq<Action>)
    ensures |trace| >= 1 && trace[0] == Acknowledge(AckStatus)
    ensures forall i :: 1 <= i < |trace| ==> !trace[i].Acknowledge?
    ensures !Eligible(order) ==> trace == [Acknowledge(AckStatus)]
    ensures Eligible(order) ==> |trace| >= 2 && trace[1] == FetchOrder(order.id)
    ensures forall i :: 2 <= i < |trace| ==> trace[i].PostSms?
    ensures |trace| <= 3
    ensures SmsCount(trace) == if Decide(order, response).SendSms? then 1 else 0
    ensures forall i :: 0 <= i < |trace| && trace[i].PostSms? ==> Decide(order, response) == SendSms(trace[i].sms)
  {
    var post := match Decide(order, response)
      case SendSms(sms) => [PostSms(sms)]
      case _ => [];
    var tail := if Eligible(order) then [FetchOrder(order.id)] + post else [];
    assert SmsCount(post) == if Decide(order, response).SendSms? then 1 else 0;
    [Acknowledge(AckStatus)] + tail
  }
}
