# Multibanco SMS webhook — Dafny model

The repository is one Express handler, `POST /webhooks/shopify-order-updated`.
It acknowledges a Shopify order webhook straight away. For a Shopify Payments order it
then fetches the full order from the Shopify Admin API and looks for the first
transaction whose receipt carries a Multibanco reference. It picks a customer
phone and posts one SMS with the Multibanco entity, reference and amount
through the EZ4U SMS gateway.

This project models the deterministic decision inside that handler as a pure
function `Webhook.Decide(order, response)` of the webhook body and the
upstream response. Its outcome is one of `Ignored`, `FetchFailed(status)`,
`Aborted`, `NoReference`, `NoPhone` or `SendSms(sms)`. `Webhook.Run` lists
the outbound actions of one delivery: the acknowledgement, the upstream fetch,
and the SMS post.

Modules:

- `JsValues` (js_values.dfy): optional JSON fields (`Undefined`, `Null`,
  `Str`), JavaScript truthiness, `||`, and template-literal interpolation.
  An empty string is falsy, so it behaves like a missing field.
- `PhoneDigits` (phone_digits.dfy): `replace(/\D/g, "")` as
  `StripNonDigits`, its algebra, and a left-to-right scanning method.
- `SmsTemplate` (sms_template.dfy): the fixed message text, plus a parser
  that reads entity, reference and amount back from it, with both round trips.
- `Webhook` (webhook.dfy): the payload and response types, eligibility,
  transaction selection, the phone fallback chain, `Decide` and `Run`.
- `WebhookProperties` (webhook_properties.dfy): what each outcome happens
  for, and what a sent SMS contains.

The handler waits once, fetches once, keeps no state between deliveries, and
sends one SMS per qualifying delivery.

An upstream request that gets no response (a DNS failure, a refused or reset
connection) makes `fetch` reject. A 2xx body that is not JSON, or has no
`order` key or a `null` one, makes the handler throw (in `json()` or at
`data.order.transactions`). In each case the catch-all swallows the error.
The model calls this outcome `Aborted`.
An upstream response counts as "ok" when its status is 200-299, as with the
Fetch API's `Response.ok`. The amount is copied as text and never read as a number.

## Model

| member | source | states |
|---|---|---|
| PhoneDigits.StripNonDigits | index.js:92 | the normalised recipient holds only the characters 0-9 and is no longer than the phone |
| PhoneDigits.StripAppend | index.js:92 | normalising a concatenation is the concatenation of the normalised parts |
| PhoneDigits.StripSnoc | index.js:92 | scanning left to right, each further character is appended exactly when it is a digit, so digits keep their original order |
| PhoneDigits.StripFixedPoints | index.js:92 | a phone is left unchanged by normalisation if and only if it consists of digits only |
| PhoneDigits.StripIdempotent | index.js:92 | normalising twice gives the same recipient as normalising once |
| PhoneDigits.StripKeepsDigits | index.js:92 | every digit of the phone survives as often as it occurs, and no other character survives |
| PhoneDigits.NormaliseRecipient | index.js:92 | the character-by-character replacement computes exactly the digits of the phone |
| SmsTemplate.Message | index.js:94-98 | the text opens with the "Pagamento Multibanco" and "Entidade" header and ends with the euro sign |
| SmsTemplate.ParseMessage | index.js:94-98 | the entity, reference and amount a message was built from can be read back from it, provided entity and reference hold no line break |
| SmsTemplate.ParsedIsMessage | index.js:94-98 | any text the parser accepts is exactly the message built from the fields it returns |
| SmsTemplate.MessageInjective | index.js:94-98 | different single-line entity/reference/amount triples never yield the same SMS text |
| Webhook.FindReference | index.js:48-53 | selection returns the first transaction, in list order, whose receipt is present with a truthy Multibanco reference, and returns nothing exactly when no transaction qualifies |
| JsValues.Or | index.js:67-70 | JavaScript's logical or of a and b is truthy exactly when a or b is, and its value is always one of the two operands (which one is fixed by the first-truthy contract of SelectPhone) |
| Webhook.SelectPhone | index.js:67-70 | the phone is truthy exactly when one of order, customer or shipping-address phone is truthy, and it is then the first truthy one of the three |
| Webhook.Run | index.js:17-101 | every delivery is acknowledged first with status 200; an eligible order then triggers one fetch of that order id and nothing after it but an optional SMS post, three actions at most; an ineligible order triggers nothing else; an SMS post appears once exactly when the decision is to send, so the acknowledgement is never repeated and a delivery posts at most one SMS |
| WebhookProperties.IneligibleIgnored | index.js:21-24 | the outcome is Ignored if and only if the gateway list is missing or lacks "shopify_payments"; then the upstream response is irrelevant and only the acknowledgement is sent |
| WebhookProperties.FetchFailureSendsNothing | index.js:42-45 | a non-2xx upstream status on an eligible order ends in FetchFailed carrying that status, and never in an SMS |
| WebhookProperties.AbortedExactly | index.js:32-48 | an eligible order is aborted, with no SMS, exactly when the upstream request gets no response or its 2xx body is unreadable or has no `order` key or a `null` one |
| WebhookProperties.NoReferenceExactly | index.js:48-58 | the outcome is NoReference exactly when the fetch succeeded and no scanned transaction has a referenced receipt; a missing transaction list counts as empty |
| WebhookProperties.NoPhoneExactly | index.js:67-75 | the outcome is NoPhone exactly when a reference was found but the order, customer and shipping-address phones are all absent or empty |
| WebhookProperties.SendsSmsExactly | index.js:19-101 | an SMS is sent if and only if the order is eligible, the fetch succeeded with an order, some transaction has a reference, and a phone is present |
| WebhookProperties.SmsContents | index.js:60-98 | a sent SMS has one recipient, the digits of the selected phone; its sender is "LumaLine"; its text is the Multibanco template filled with entity, reference and amount from the first referenced receipt |
| WebhookProperties.SmsFieldsFromOneReceipt | index.js:60-98 | when entity and reference hold no line break, the entity, reference and amount read back from a sent text all belong to the one chosen receipt |
| WebhookProperties.RecipientIsNormalised | index.js:92 | the sent recipient holds only digits, is unchanged by another normalisation, and keeps every digit of the selected phone |
| WebhookProperties.DigitlessPhoneGivesEmptyRecipient | index.js:67-92 | for an eligible order with a 2xx fetch and a referenced transaction, any truthy phone without a digit, such as "n/a", still produces an SMS, addressed to the empty string |

## Left out

- Express setup, JSON middleware and port binding (index.js:1-7, 116-120): server plumbing with no decision logic.
- The 20-second wait before the fetch (index.js:29): timing only. The upstream response is a parameter of `Decide`.
- The HTTP calls, URLs and headers (index.js:32-40, 83-101): network clients. The model keeps only the order id fetched and the SMS body that would be posted.
- Environment variables and the base64 Basic-auth header (index.js:36, 78-80): secrets and a library call.
- Handling of the SMS gateway's answer (index.js:103-109): it only logs, and processing ends either way.
- The catch-all (index.js:111-113) is modelled for an upstream request with no response, and for a 2xx body that is unreadable or has no `order` key or a `null` one (`Aborted`). A primitive `order` such as `0` yields NoReference in the handler (its `transactions` is undefined, so `|| []` applies), but it cannot be expressed. It is not modelled for payloads of the wrong JSON type, such as a non-array `transactions` or a non-string phone. Those also end with no SMS, but fields hold strings only, so those payloads cannot be expressed.
- A rejection of the SMS post itself (index.js:83-101) also reaches the catch-all. The model records the post as sent, because nothing follows it but logging.
- A string-valued `payment_gateway_names`, where `includes` would be a substring test: the model takes the field to be a list of names.
- Numeric JSON values for receipt fields: a numeric entity or amount stands for the string that `${}` would render for it (JavaScript's number-to-string conversion, so `12.50` is "12.5"), not for its JSON text. A numeric reference `0` is falsy and skipped by the search, but it cannot be expressed: the model would take it as the truthy string "0". The amount is never interpreted as a number.
- Logging (`console.log` / `console.error`) throughout: no effect on the outcome.
- State across deliveries: the handler keeps none, so a redelivered webhook sends its SMS again. There is no idempotency, retry, polling loop, callback verification or reconciliation state to model.
- Text encoding: JavaScript strings are UTF-16 and may hold lone surrogates, while a Dafny `string` holds Unicode scalar values. Such strings cannot be expressed. On well-formed text, `/\D/g` and the template behave the same.
