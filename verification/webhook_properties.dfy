/** What one delivery of the webhook can and cannot lead to. */
module WebhookProperties {
  import opened JsValues
  import PhoneDigits
  import SmsTemplate
  import opened Webhook

  /** The transactions the handler scans when the upstream fetch succeeded. */
  function ScannedTransactions(response: UpstreamResult): seq<Transaction>
    requires response.Responded? && response.body.Some?
  {
    TransactionsOrEmpty(response.body.value)
  }

  /** Transaction `i` is the first one that carries a Multibanco reference. */
  predicate FirstWithReference(ts: seq<Transaction>, i: nat) {
    i < |ts| && HasReference(ts[i]) && forall j :: 0 <= j < i ==> !HasReference(ts[j])
  }

  /** An order without Shopify Payments among its gateways is ignored, whatever
      the upstream would have answered, and nothing but the acknowledgement is sent. */
  lemma IneligibleIgnored(order: Order, response: UpstreamResult, other: UpstreamResult)
    ensures Decide(order, response) == Ignored <==> !Eligible(order)
    ensures !Eligible(order) ==> Decide(order, response) == Decide(order, other)
    ensures !Eligible(order) ==> Run(order, response) == [Acknowledge(200)]
  {
  }

  /** A non-2xx upstream status ends processing with no SMS. */
  lemma FetchFailureSendsNothing(order: Order, response: UpstreamResult)
    ensures Decide(order, response).FetchFailed? <==> Eligible(order) && response.Responded? && !IsOk(response)
    ensures Decide(order, response).FetchFailed? ==> Decide(order, response).status == response.status
    ensures !IsOk(response) ==> SmsCount(Run(order, response)) == 0
  {
  }

  /** Processing aborts, with no SMS, when the upstream request gets no
      response or its 2xx body carries no `order` object. */
  lemma AbortedExactly(order: Order, response: UpstreamResult)
    ensures Decide(order, response) == Aborted <==>
              Eligible(order) && (response.Unreachable? || (IsOk(response) && response.body.None?))
    ensures Decide(order, response) == Aborted ==> SmsCount(Run(order, response)) == 0
  {
  }

  /** No SMS unless some scanned transaction carries a truthy reference; a
      missing transaction list counts as an empty one. */
  lemma NoReferenceExactly(order: Order, response: UpstreamResult)
    ensures Decide(order, response) == NoReference <==>
              Eligible(order) && IsOk(response) && response.body.Some? &&
              forall j :: 0 <= j < |ScannedTransactions(response)| ==> !HasReference(ScannedTransactions(response)[j])
    ensures Eligible(order) && IsOk(response) && response.body == Some(FetchedOrder(None)) ==>
              Decide(order, response) == NoReference
  {
    if Eligible(order) && IsOk(response) && response.body.Some? {
      var ts := ScannedTransactions(response);
      if FindReference(ts).Some? {
        assert HasReference(ts[FindReference(ts).value]);
      }
    }
  }

  /** No SMS when the order, its customer and its shipping address all lack a phone. */
  lemma NoPhoneExactly(order: Order, response: UpstreamResult)
    ensures Decide(order, response) == NoPhone <==>
              Eligible(order) && IsOk(response) && response.body.Some? &&
              FindReference(ScannedTransactions(response)).Some? &&
              forall k :: 0 <= k < 3 ==> !Truthy(PhoneSources(order)[k])
  {
  }

  /** An SMS is sent exactly when every earlier check passes. */
  lemma SendsSmsExactly(order: Order, response: UpstreamResult)
    ensures Decide(order, response).SendSms? <==>
              Eligible(order) && IsOk(response) && response.body.Some? &&
              (exists i :: 0 <= i < |ScannedTransactions(response)| && HasReference(ScannedTransactions(response)[i])) &&
              Truthy(SelectPhone(order))
  {
    if Eligible(order) && IsOk(response) && response.body.Some? {
      var ts := ScannedTransactions(response);
      if FindReference(ts).Some? {
        assert HasReference(ts[FindReference(ts).value]);
      }
    }
  }

  /** The SMS that is sent: one recipient, the digits of the selected phone;
      the fixed sender; the template filled in from the first receipt that
      carries a reference, all three values from that same receipt. */
  lemma SmsContents(order: Order, response: UpstreamResult, sms: Sms)
    requires Decide(order, response) == SendSms(sms)
    ensures IsOk(response) && response.body.Some?
    ensures exists i: nat :: FirstWithReference(ScannedTransactions(response), i) &&
              var receipt := ScannedTransactions(response)[i].receipt.value;
              sms.message == "Pagamento Multibanco\nEntidade " + Interpolate(receipt.entity) +
                             "\nRef " + receipt.reference.text +
                             "\nValor " + Interpolate(receipt.amount) + "€"
    ensures |sms.to| == 1
    ensures sms.to[0] == PhoneDigits.StripNonDigits(SelectPhone(order).text)
    ensures sms.from == "LumaLine"
  {
    var ts := ScannedTransactions(response);
    var i := FindReference(ts).value;
    assert FirstWithReference(ts, i);
    SmsTemplate.MessageLiterals(ReceiptFields(ts[i].receipt.value));
  }

  /** Entity, reference and amount can be read back from the sent text, and
      they are those of the chosen receipt, whenever entity and reference are
      single-line values. */
  lemma SmsFieldsFromOneReceipt(order: Order, response: UpstreamResult, sms: Sms)
    requires Decide(order, response) == SendSms(sms)
    ensures IsOk(response) && response.body.Some?
    ensures exists i: nat :: FirstWithReference(ScannedTransactions(response), i) &&
              var receipt := ScannedTransactions(response)[i].receipt.value;
              (SmsTemplate.SingleLine(ReceiptFields(receipt)) ==>
                 SmsTemplate.Parse(sms.message) == Some(ReceiptFields(receipt)))
  {
    var ts := ScannedTransactions(response);
    var i := FindReference(ts).value;
    var receipt := ts[i].receipt.value;
    assert FirstWithReference(ts, i);
    if SmsTemplate.SingleLine(ReceiptFields(receipt)) {
      SmsTemplate.ParseMessage(ReceiptFields(receipt));
    }
  }

  /** The recipient holds only 0-9, is already normalised, and keeps every
      digit of the selected phone. */
  lemma RecipientIsNormalised(order: Order, response: UpstreamResult, sms: Sms)
    requires Decide(order, response) == SendSms(sms)
    ensures |sms.to| == 1
    ensures PhoneDigits.AllDigits(sms.to[0])
    ensures PhoneDigits.StripNonDigits(sms.to[0]) == sms.to[0]
    ensures forall c :: PhoneDigits.IsDigit(c) ==> multiset(sms.to[0])[c] == multiset(SelectPhone(order).text)[c]
  {
    var phone := SelectPhone(order).text;
    PhoneDigits.StripIdempotent(phone);
    PhoneDigits.StripKeepsDigits(phone);
  }

  /** A truthy phone without any digit (such as "n/a") does not stop the SMS:
      it is still sent, addressed to the empty recipient. */
  lemma DigitlessPhoneGivesEmptyRecipient(order: Order, response: UpstreamResult)
    requires Eligible(order) && IsOk(response) && response.body.Some?
    requires exists i :: 0 <= i < |ScannedTransactions(response)| && HasReference(ScannedTransactions(response)[i])
    requires Truthy(SelectPhone(order))
    requires forall k :: 0 <= k < |SelectPhone(order).text| ==> !PhoneDigits.IsDigit(SelectPhone(order).text[k])
    ensures Decide(order, response).SendSms?
    ensures Decide(order, response).sms.to == [""]
  {
    var phone := SelectPhone(order).text;
    assert FindReference(ScannedTransactions(response)).Some?;
    PhoneDigits.StripKeepsDigits(phone);
  }
}
