/**
 * The payment request handler of the storefront's backend
 * (backend/payment/index.py): HTTP-method dispatch, validation of the
 * decoded request body as its pydantic models declare it, and the result
 * record of a created payment.
 */
module Payment {
  import opened Wrappers
  import opened Text
  import opened PaymentMethods

  // ---------------------------------------------------------------------
  // The request as it arrives, already decoded from JSON

  datatype ItemBody = ItemBody(id: int, name: string, price: real, quantity: int, image: string)

  datatype CustomerBody = CustomerBody(
    fullName: string, email: string, phone: string, address: string, city: string,
    postalCode: Option<string>)

  datatype RequestBody = RequestBody(amount: real, paymentMethod: string, customerInfo: CustomerBody, items: seq<ItemBody>)

  /**
   * The body after `json.loads`. `Undecodable` is text that is not JSON, and
   * JSON that lacks a required field or gives one the wrong type (a missing
   * body reads as '{}', which lacks them all).
   */
  datatype Body = Undecodable | Decoded(fields: RequestBody)

  /** The event: its `httpMethod`, if present, and its body. */
  datatype Event = Event(httpMethod: Option<string>, body: Body)

  // ---------------------------------------------------------------------
  // The validated request

  datatype CustomerInfo = CustomerInfo(
    fullName: string, email: string, phone: string, address: string, city: string, postalCode: string)

  datatype PaymentRequest = PaymentRequest(
    amount: real, paymentMethod: PaymentMethod, customerInfo: CustomerInfo, items: seq<ItemBody>)

  /** The constraints of one `CartItem`: price and quantity above zero. */
  predicate ValidItem(item: ItemBody) {
    item.price > 0.0 && item.quantity > 0
  }

  /** Every item of the list passes its own validation. */
  function ItemsValid(items: seq<ItemBody>): (ok: bool)
    ensures ok <==> forall i :: 0 <= i < |items| ==> ValidItem(items[i])
  {
    if items == [] then true else ValidItem(items[0]) && ItemsValid(items[1..])
  }

  /** `CustomerInfo`: five required non-empty fields; `postalCode` is optional and defaults to "". */
  function ValidateCustomer(c: CustomerBody): (r: Option<CustomerInfo>)
    ensures r.Some? <==> c.fullName != "" && c.email != "" && c.phone != "" && c.address != "" && c.city != ""
    ensures r.Some? ==> r.value == CustomerInfo(c.fullName, c.email, c.phone, c.address, c.city, c.postalCode.GetOr(""))
  {
    if c.fullName == "" || c.email == "" || c.phone == "" || c.address == "" || c.city == "" then None
    else Some(CustomerInfo(c.fullName, c.email, c.phone, c.address, c.city, c.postalCode.GetOr("")))
  }

  /**
   * `PaymentRequest(**body)`: a positive amount, a known payment method,
   * a valid customer and at least one item, each valid. The amount is not
   * compared with the items.
   */
  function Validate(body: RequestBody): (r: Option<PaymentRequest>)
    ensures r.Some? <==>
      && body.amount > 0.0
      && body.paymentMethod in {"sbp", "tbank", "sber"}
      && ValidateCustomer(body.customerInfo).Some?
      && |body.items| >= 1
      && forall i :: 0 <= i < |body.items| ==> ValidItem(body.items[i])
    ensures r.Some? ==>
      && r.value.amount == body.amount
      && Name(r.value.paymentMethod) == body.paymentMethod
      && Some(r.value.customerInfo) == ValidateCustomer(body.customerInfo)
      && r.value.items == body.items
  {
    if body.amount <= 0.0 then None
    else match Parse(body.paymentMethod)
      case None => None
      case Some(m) =>
        match ValidateCustomer(body.customerInfo)
        case None => None
        case Some(c) =>
          if |body.items| < 1 || !ItemsValid(body.items) then None
          else Some(PaymentRequest(body.amount, m, c, body.items))
  }

  // ---------------------------------------------------------------------
  // The result of a created payment

  /** `f"ORDER-{request_id[:8].upper()}"` */
  function OrderId(requestId: string): (id: string)
    ensures StartsWith(id, "ORDER-")
    ensures |id| == 6 + (if |requestId| < 8 then |requestId| else 8)
    ensures forall i :: 6 <= i < |id| ==> !IsLower(id[i])
    ensures id[6..] == ToUpper(Prefix(requestId, 8))
    ensures forall i :: 0 <= i < |id| - 6 ==> id[6 + i] == UpperChar(requestId[i])
  {
    var p := Prefix(requestId, 8);
    ToUpperConcat("ORDER-", p);
    ToUpperFixes("ORDER-");
    ToUpperHasNoLower(p);
    assert forall i :: 0 <= i < |p| ==> p[i] == requestId[..|p|][i];
    ToUpper("ORDER-" + p)
  }

  /** The part of the method's payment URL that precedes the order id. */
  function UrlBase(m: PaymentMethod): string {
    match m
    case Sbp => "https://sbp.payment.ru/pay?order="
    case Tbank => "https://securepay.tinkoff.ru/pay?order="
    case Sber => "https://securepayments.sberbank.ru/payment?order="
  }

  /** The payment page for `orderId`, with the amount as Python formats it. */
  function PaymentUrl(m: PaymentMethod, orderId: string, amountText: string): (url: string)
    ensures StartsWith(url, UrlBase(m))
    ensures |url| == |UrlBase(m)| + |orderId| + |"&amount="| + |amountText|
    ensures url[|UrlBase(m)|..|UrlBase(m)| + |orderId|] == orderId
  {
    UrlBase(m) + orderId + "&amount=" + amountText
  }

  datatype Customer = Customer(name: string, email: string, phone: string)

  datatype PaymentResult = PaymentResult(
    success: bool, orderId: string, amount: real, paymentMethod: string, paymentUrl: string,
    customer: Customer, itemsCount: nat, status: string)

  datatype ResponseBody = Empty | ErrorBody(error: string) | Created(result: PaymentResult)

  datatype Response = Response(statusCode: int, body: ResponseBody)

  /** The record a valid request is answered with. */
  function ResultOf(req: PaymentRequest, requestId: string, formatAmount: real -> string): PaymentResult {
    var orderId := OrderId(requestId);
    PaymentResult(
      true, orderId, req.amount, Name(req.paymentMethod),
      PaymentUrl(req.paymentMethod, orderId, formatAmount(req.amount)),
      Customer(req.customerInfo.fullName, req.customerInfo.email, req.customerInfo.phone),
      |req.items|, "pending")
  }

  /**
   * `handler(event, context)`; `requestId` is `context.request_id` and
   * `formatAmount` is Python's formatting of a float inside an f-string.
   */
  function Handler(event: Event, requestId: string, formatAmount: real -> string): Response {
    var verb := event.httpMethod.GetOr("GET");
    if verb == "OPTIONS" then Response(200, Empty)
    else if verb != "POST" then Response(405, ErrorBody("Method not allowed"))
    else match event.body
      case Undecodable => Response(400, ErrorBody("Invalid request"))
      case Decoded(fields) =>
        match Validate(fields)
        case None => Response(400, ErrorBody("Invalid request"))
        case Some(req) => Response(200, Created(ResultOf(req, requestId, formatAmount)))
  }

  /** The request is a POST whose body decodes and validates. */
  predicate AcceptedPost(event: Event) {
    && event.httpMethod == Some("POST")
    && event.body.Decoded?
    && Validate(event.body.fields).Some?
  }

  /** The status code of every response, by the request that caused it. */
  lemma HandlerStatus(event: Event, requestId: string, formatAmount: real -> string)
    ensures var r := Handler(event, requestId, formatAmount);
      && (r.statusCode == 200 <==> event.httpMethod == Some("OPTIONS") || AcceptedPost(event))
      && (r.statusCode == 405 <==> event.httpMethod.GetOr("GET") !in {"OPTIONS", "POST"})
      && (r.statusCode == 400 <==> event.httpMethod == Some("POST") && !AcceptedPost(event))
  {
  }

  /** A pre-flight request is answered 200 with an empty body, whatever else it carries. */
  lemma OptionsIsEmpty(body: Body, requestId: string, formatAmount: real -> string)
    ensures Handler(Event(Some("OPTIONS"), body), requestId, formatAmount) == Response(200, Empty)
  {
  }

  /** An event without a method is treated as a GET and refused. */
  lemma MissingMethodRefused(body: Body, requestId: string, formatAmount: real -> string)
    ensures Handler(Event(None, body), requestId, formatAmount).statusCode == 405
  {
  }

  /** What an accepted request is answered with. */
  lemma AcceptedResult(event: Event, requestId: string, formatAmount: real -> string)
    requires AcceptedPost(event)
    ensures var r := Handler(event, requestId, formatAmount);
      && r.statusCode == 200 && r.body.Created?
      && var res := r.body.result;
      && res.success && res.status == "pending"
      && res.orderId == "ORDER-" + ToUpper(Prefix(requestId, 8))
      && res.amount == event.body.fields.amount
      && res.paymentMethod == event.body.fields.paymentMethod
      && res.itemsCount == |event.body.fields.items|
      && var c := event.body.fields.customerInfo;
      && res.customer == Customer(c.fullName, c.email, c.phone)
      && res.paymentUrl == PaymentUrl(Validate(event.body.fields).value.paymentMethod, res.orderId, formatAmount(res.amount))
  {
    ToUpperConcat("ORDER-", Prefix(requestId, 8));
    ToUpperFixes("ORDER-");
  }

  /** Different methods send the customer to different payment pages. */
  lemma UrlIdentifiesMethod(m1: PaymentMethod, m2: PaymentMethod, id1: string, id2: string, a1: string, a2: string)
    requires m1 != m2
    ensures PaymentUrl(m1, id1, a1) != PaymentUrl(m2, id2, a2)
  {
    var u1, u2 := PaymentUrl(m1, id1, a1), PaymentUrl(m2, id2, a2);
    var k := if m1 == Sbp || m2 == Sbp then 9 else 17;
    assert u1[..|UrlBase(m1)|] == UrlBase(m1) && u2[..|UrlBase(m2)|] == UrlBase(m2);
    assert u1[k] == UrlBase(m1)[k] && u2[k] == UrlBase(m2)[k];
    assert UrlBase(Sbp)[9] == 'b' && UrlBase(Tbank)[9] == 'e' && UrlBase(Sber)[9] == 'e';
    assert UrlBase(Tbank)[17] == '.' && UrlBase(Sber)[17] == 'm';
  }

  /** Only the sign of the amount is checked: a request whose amount is not the items' total is accepted. */
  lemma AmountNotMatchedToItems()
    ensures exists body: RequestBody ::
      && Validate(body).Some?
      && body.amount != body.items[0].price * (body.items[0].quantity as real)
      && |body.items| == 1
  {
    var item := ItemBody(1, "stylus", 250.0, 2, "");
    var body := RequestBody(1.0, "sbp", CustomerBody("A", "a@b", "1", "St", "Town", None), [item]);
    assert Validate(body).Some?;
  }
}
