/**
 * The order-change notifier: reads the new image of the first stream record, checks the
 * fields the email needs, and sends a status email from the configured address to itself.
 */
module Notifier {
  import opened Wrappers
  import opened JsText
  import opened JsValue
  import opened Schema

  const NoParamsText := "invalid request, missing the parameters in body"
  const MissingFieldsText := "Properties orderId, email, partner and message are required"

  /** A stream record's change data; `newImage` is the unmarshalled new image, if any. */
  datatype StreamData = StreamData(newImage: Option<Item>)

  /** A stream record; `dynamodb` is absent on records without change data. */
  datatype StreamRecord = StreamRecord(dynamodb: Option<StreamData>)

  /** A stream event; `records` is `None` when the event has no `Records`. */
  datatype StreamEvent = StreamEvent(records: Option<seq<StreamRecord>>)

  datatype Email = Email(source: string, toAddresses: seq<string>, subject: string, text: string)

  /**
   * How the handler ends: a 400 result, the JSON text of a caught error, an exception it
   * does not catch, or an email sent and the value it resolves with (`undefined`).
   */
  datatype NotifyResult =
    | BadRequest(body: string)
    | ErrorJson(error: string)
    | Crashed(error: string)
    | Notified(email: Email, resolved: Option<Value>)

  function Subject(partner: string, orderId: string): string {
    partner + " order " + orderId + " status updated"
  }

  const Greeting := "Hi "
  const CustomerPhrase := ", \n\n Your customer with the email "
  const OrderPhrase := " has placed an order with order id "
  const StatusPhrase := " \n \n The status of the order has been updated to "
  const Closing := ". \n \n Please connect with customer for further processings. \n \n Thanks, \n AnyCompany Team"

  /** The pieces of the email text: fixed phrases around partner, email, order id and status. */
  function EmailPieces(partner: string, email: string, orderId: string, status: string): seq<string> {
    [Greeting, partner, CustomerPhrase, email, OrderPhrase, orderId, StatusPhrase, status, Closing]
  }

  function EmailText(partner: string, email: string, orderId: string, status: string): string {
    Concat(EmailPieces(partner, email, orderId, status))
  }

  /** The email text names the partner, the customer's email, the order id and the status. */
  lemma EmailTextMentions(partner: string, email: string, orderId: string, status: string)
    ensures var t := EmailText(partner, email, orderId, status);
            Includes(t, partner) && Includes(t, email) && Includes(t, orderId) && Includes(t, status)
  {
    var pieces := EmailPieces(partner, email, orderId, status);
    ConcatIncludes(pieces, 1);
    ConcatIncludes(pieces, 3);
    ConcatIncludes(pieces, 5);
    ConcatIncludes(pieces, 7);
  }

  /** The status email, from the configured address to that same address. */
  function StatusEmail(sesFrom: string, partner: string, email: string, orderId: string, status: string): Email {
    Email(sesFrom, [sesFrom], Subject(partner, orderId), EmailText(partner, email, orderId, status))
  }

  /**
   * `sendEmail`: a delivery failure is logged and swallowed, so either way the call
   * resolves with `undefined` and the outcome of delivery is not an input.
   */
  function SendEmail(orderId: string, email: string, partner: string, status: string, sesFrom: string): NotifyResult {
    Notified(StatusEmail(sesFrom, partner, email, orderId, status), None)
  }

  /** `newImage.subscribers[0].email`, or the TypeError reading it throws. */
  function FirstSubscriberEmail(image: Item): Access {
    var first := Member(Field(image, "subscribers"), "0");
    if first.TypeError? then first else Member(first.v, "email")
  }

  /**
   * The part of the handler inside its try block, given the fields it reads from the new
   * image (the subscriber's email may instead be the TypeError reading it threw): an email
   * when all four fields are truthy, otherwise the caught error as JSON.
   */
  function NotifyFields(orderId: Option<Value>, email: Access, statusDescription: Option<Value>, partner: Option<Value>,
                        sesFrom: string): (r: NotifyResult)
    ensures r.Notified? || r.ErrorJson?
    ensures r.Notified? <==> email.Got? && Present(orderId) && Present(email.v) && Present(statusDescription) && Present(partner)
    ensures r.Notified? ==>
              && r.email == StatusEmail(sesFrom, Template(partner), Template(email.v), Template(orderId), Template(statusDescription))
              && r.resolved.None?
    ensures r.ErrorJson? ==> r.error == if email.TypeError? then email.message else MissingFieldsText
  {
    if email.TypeError? then ErrorJson(email.message)
    else if !Present(orderId) || !Present(email.v) || !Present(statusDescription) || !Present(partner) then
      ErrorJson(MissingFieldsText)
    else
      SendEmail(Template(orderId), Template(email.v), Template(partner), Template(statusDescription), sesFrom)
  }

  /** The fields of a new image the handler reads, in the order it reads them. */
  function NotifyImage(image: Item, sesFrom: string): NotifyResult {
    NotifyFields(Field(image, "orderId"), FirstSubscriberEmail(image), Field(image, "statusDescription"),
                 Field(image, "partner"), sesFrom)
  }

  /** The handler, with the configured sender address as an input. */
  function HandleStream(event: StreamEvent, sesFrom: string): (r: NotifyResult)
    ensures event.records.None? ==> r == BadRequest(NoParamsText)
    ensures event.records == Some([]) ==> r.Crashed?
    ensures event.records.Some? && |event.records.value| > 0
            && (event.records.value[0].dynamodb.None? || event.records.value[0].dynamodb.value.newImage.None?)
            ==> r == BadRequest(NoParamsText)
    ensures event.records.Some? && |event.records.value| > 0
            && event.records.value[0].dynamodb.Some? && event.records.value[0].dynamodb.value.newImage.Some?
            ==> r == NotifyImage(event.records.value[0].dynamodb.value.newImage.value, sesFrom)
  {
    if event.records.None? then BadRequest(NoParamsText)
    else if |event.records.value| == 0 then
      // `Records[0]` is undefined, and reading its `dynamodb` throws outside the try block
      Crashed("Cannot read properties of undefined (reading 'dynamodb')")
    else
      var record := event.records.value[0];
      if record.dynamodb.None? || record.dynamodb.value.newImage.None? then BadRequest(NoParamsText)
      else NotifyImage(record.dynamodb.value.newImage.value, sesFrom)
  }

  /**
   * A stored order with a status description and a subscriber with an email is announced
   * to the configured address, with the partner's name and the order id in the subject.
   */
  lemma NotifyStoredOrder(o: Order, sesFrom: string)
    requires o.orderId != "" && o.statusDescription.Some? && o.statusDescription.value != ""
    requires |o.subscribers| >= 1 && o.subscribers[0].email != ""
    ensures var r := HandleStream(StreamEvent(Some([StreamRecord(Some(StreamData(Some(OrderItem(o)))))])), sesFrom);
            && r.Notified?
            && r.email.subject == Subject(PartnerText(o.partner), o.orderId)
            && r.email.toAddresses == [sesFrom]
            && r.email.text == EmailText(PartnerText(o.partner), o.subscribers[0].email, o.orderId, o.statusDescription.value)
  {
    OrderItemValues(o);
    StoredSubscriberEmail(o);
  }

  lemma StoredSubscriberEmail(o: Order)
    requires |o.subscribers| >= 1
    ensures FirstSubscriberEmail(OrderItem(o)) == Got(Some(Str(o.subscribers[0].email)))
  {
    OrderItemValues(o);
    assert IndexKey("0") == Some(0);
    assert Member(Some(CustomerValue(o.subscribers[0])), "email") == Got(Some(Str(o.subscribers[0].email)));
  }
}
