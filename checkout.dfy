/** The POST handler of src/app/api/checkout/route.ts: the empty-items guard, the mapping of
    cart lines to payment line items, the session parameters with their default redirect URLs,
    and the response. The payment processor's session call is not modelled: its outcome is a
    parameter, `None` when the call throws. */
module CheckoutRoute {
  import opened StoreTypes
  import opened Text
  import opened CartEngine

  const Currency: string := "brl"
  const NoItemsError: string := "No items provided"
  const CreateFailedError: string := "Failed to create checkout session"

  /** JavaScript's `value || fallback` on an optional string: an absent or empty value falls
      back. */
  function OrDefault(value: Option<string>, fallback: string): string {
    if value.Some? && value.value != "" then value.value else fallback
  }

  // ---------------------------------------------------------------------------------------
  // Line items

  /** An image that starts with "http" is kept; any other is appended to the base URL. */
  function ResolveImageUrl(baseUrl: string, image: string): string {
    if StartsWith(image, "http") then image else baseUrl + image
  }

  /** `Math.round`: the nearest integer, halves rounded up. */
  function Round(x: real): (r: int)
    ensures r as real - 0.5 <= x < r as real + 0.5
  {
    (x + 0.5).Floor
  }

  /** `Math.round(price * 100)`: the price in centavos. */
  function UnitAmount(price: real): int {
    Round(price * 100.0)
  }

  datatype Metadata = Metadata(auraId: string, stripeProductId: Option<string>)
  datatype ProductData = ProductData(name: string, description: string, images: seq<string>, metadata: Metadata)
  datatype PriceData = PriceData(currency: string, productData: ProductData, unitAmount: int)
  datatype LineItem = LineItem(priceData: PriceData, quantity: nat)

  /** The body of the `items.map` callback. */
  function BuildLineItem(baseUrl: string, item: CartItem): LineItem {
    var p := item.product;
    LineItem(
      PriceData(Currency,
                ProductData(p.name, p.description, [ResolveImageUrl(baseUrl, p.image)],
                            Metadata(p.id, p.stripeProductId)),
                UnitAmount(p.price)),
      item.quantity)
  }

  /** `items.map(...)`: one line item per cart line, in order, with the product's name,
      description and ids, the resolved image, the price rounded to the nearest centavo, the
      currency "brl" and the quantity copied. */
  function BuildLineItems(baseUrl: string, items: seq<CartItem>): (r: seq<LineItem>)
    ensures |r| == |items|
    ensures forall i :: 0 <= i < |r| ==>
      var p, d := items[i].product, r[i].priceData;
      && r[i].quantity == items[i].quantity
      && d.currency == "brl"
      && d.productData.name == p.name
      && d.productData.description == p.description
      && d.productData.images == [ResolveImageUrl(baseUrl, p.image)]
      && d.productData.metadata == Metadata(p.id, p.stripeProductId)
      && d.unitAmount as real - 0.5 <= p.price * 100.0 < d.unitAmount as real + 0.5
  {
    seq(|items|, i requires 0 <= i < |items| => BuildLineItem(baseUrl, items[i]))
  }

  // ---------------------------------------------------------------------------------------
  // Session request and response

  datatype CheckoutBody = CheckoutBody(items: Option<seq<CartItem>>, successUrl: Option<string>, cancelUrl: Option<string>)

  datatype SessionParams = SessionParams(
    paymentMethodTypes: seq<string>,
    lineItems: seq<LineItem>,
    mode: string,
    successUrl: string,
    cancelUrl: string,
    orderId: string,
    customerCreation: string,
    locale: string)

  /** What the payment processor returns for a created session. */
  datatype Session = Session(id: string, url: Option<string>)

  datatype ResponseBody = ErrorBody(error: string) | SessionBody(sessionId: string, url: Option<string>)
  datatype Response = Response(status: nat, body: ResponseBody)

  /** The request sent to the payment processor and the response returned to the client. */
  datatype PostOutcome = PostOutcome(sessionRequest: Option<SessionParams>, response: Response)

  function DefaultSuccessUrl(baseUrl: string): string {
    baseUrl + "/success?session_id={CHECKOUT_SESSION_ID}"
  }

  function DefaultCancelUrl(baseUrl: string): string {
    baseUrl + "/cancel"
  }

  /** `LUMA-${Date.now()}` */
  function OrderId(now: nat): string {
    "LUMA-" + NatToDecimal(now)
  }

  function SessionRequest(baseUrl: string, items: seq<CartItem>, successUrl: Option<string>,
                          cancelUrl: Option<string>, now: nat): SessionParams
  {
    SessionParams(["card"], BuildLineItems(baseUrl, items), "payment",
                  OrDefault(successUrl, DefaultSuccessUrl(baseUrl)),
                  OrDefault(cancelUrl, DefaultCancelUrl(baseUrl)),
                  OrderId(now), "always", "pt-BR")
  }

  /** POST. `body` is `None` when the request body does not parse; `created` is the payment
      processor's answer to the session request, `None` when that call throws. */
  function Post(body: Option<CheckoutBody>, baseUrl: string, now: nat, created: Option<Session>): (r: PostOutcome)
    ensures r.response.status in {200, 400, 500}
    ensures r.response.status == 400
        <==> body.Some? && (body.value.items.None? || body.value.items.value == [])
    ensures r.response.status == 400 ==> r.response.body == ErrorBody(NoItemsError)
    ensures r.sessionRequest.Some?
        <==> body.Some? && body.value.items.Some? && body.value.items.value != []
    ensures r.response.status == 500 <==> body.None? || (r.sessionRequest.Some? && created.None?)
    ensures r.response.status == 500 ==> r.response.body == ErrorBody(CreateFailedError)
    ensures r.response.status == 200 ==>
      created.Some? && r.response.body == SessionBody(created.value.id, created.value.url)
  {
    match body
    case None => PostOutcome(None, Response(500, ErrorBody(CreateFailedError)))
    case Some(b) =>
      if b.items.None? || b.items.value == [] then
        PostOutcome(None, Response(400, ErrorBody(NoItemsError)))
      else
        var request := SessionRequest(baseUrl, b.items.value, b.successUrl, b.cancelUrl, now);
        match created
        case None => PostOutcome(Some(request), Response(500, ErrorBody(CreateFailedError)))
        case Some(s) => PostOutcome(Some(request), Response(200, SessionBody(s.id, s.url)))
  }

  // ---------------------------------------------------------------------------------------
  // Properties

  /** An image already starting with "http" is kept; any other ends up after the base URL,
      so the resolved URL always ends with the image path. */
  lemma ImageUrlEndsWithImage(baseUrl: string, image: string)
    ensures var u := ResolveImageUrl(baseUrl, image);
      |image| <= |u| && u[|u| - |image|..] == image
      && (StartsWith(image, "http") ==> u == image)
      && (!StartsWith(image, "http") ==> StartsWith(u, baseUrl) && |u| == |baseUrl| + |image|)
  {
    var u := ResolveImageUrl(baseUrl, image);
    if !StartsWith(image, "http") {
      assert u[..|baseUrl|] == baseUrl;
      assert u[|u| - |image|..] == image;
    }
  }

  /** With an http(s) base URL every resolved image URL is absolute, and resolving it again
      changes nothing. */
  lemma ImageUrlAbsolute(baseUrl: string, image: string)
    requires StartsWith(baseUrl, "http")
    ensures StartsWith(ResolveImageUrl(baseUrl, image), "http")
    ensures ResolveImageUrl(baseUrl, ResolveImageUrl(baseUrl, image)) == ResolveImageUrl(baseUrl, image)
  {
    var u := ResolveImageUrl(baseUrl, image);
    if !StartsWith(image, "http") {
      assert (baseUrl + image)[..4] == baseUrl[..4];
    }
  }

  /** `Math.round` picks the only integer within half a unit (halves going up). */
  lemma RoundUnique(x: real, c: int)
    requires c as real - 0.5 <= x < c as real + 0.5
    ensures Round(x) == c
  {
  }

  /** A price that is a whole number of centavos converts to exactly that number. */
  lemma WholeCents(c: int)
    ensures UnitAmount(c as real / 100.0) == c
  {
    assert c as real / 100.0 * 100.0 == c as real;
    RoundUnique(c as real, c);
  }

  /** 129.99 becomes 12999 centavos. */
  lemma UnitAmountExample()
    ensures UnitAmount(129.99) == 12999
  {
    WholeCents(12999);
  }

  /** A price within half a centavo of a whole number of centavos rounds to it. */
  lemma UnitAmountNearest(price: real, c: int)
    requires c as real - 0.5 <= price * 100.0 < c as real + 0.5
    ensures UnitAmount(price) == c
  {
    RoundUnique(price * 100.0, c);
  }

  predicate WholeCentPrices(items: seq<CartItem>) {
    forall i :: 0 <= i < |items| ==> (items[i].product.price * 100.0).Floor as real == items[i].product.price * 100.0
  }

  /** What the session charges: the sum of unit amount × quantity over the line items. */
  function ChargeTotal(lineItems: seq<LineItem>): int {
    if lineItems == [] then 0
    else ChargeTotal(lineItems[..|lineItems| - 1])
         + lineItems[|lineItems| - 1].priceData.unitAmount * lineItems[|lineItems| - 1].quantity
  }

  lemma LineCharge(baseUrl: string, item: CartItem)
    requires (item.product.price * 100.0).Floor as real == item.product.price * 100.0
    ensures (BuildLineItem(baseUrl, item).priceData.unitAmount * item.quantity) as real
         == 100.0 * LineTotal(item)
  {
    var c := (item.product.price * 100.0).Floor;
    RoundUnique(item.product.price * 100.0, c);
    var q := item.quantity as real;
    assert (c * item.quantity) as real == c as real * q;
    assert c as real * q == (item.product.price * 100.0) * q;
    assert (item.product.price * 100.0) * q == 100.0 * (item.product.price * q);
  }

  /** When every price is a whole number of centavos, the session charges exactly 100 × the
      cart total the store computed. */
  lemma {:induction false} ChargeMatchesCartTotal(baseUrl: string, items: seq<CartItem>)
    requires WholeCentPrices(items)
    ensures ChargeTotal(BuildLineItems(baseUrl, items)) as real == 100.0 * CalculateTotal(items)
    decreases |items|
  {
    if items != [] {
      var n := |items|;
      var front := items[..n - 1];
      var lines := BuildLineItems(baseUrl, items);
      assert lines[..n - 1] == BuildLineItems(baseUrl, front);
      ChargeMatchesCartTotal(baseUrl, front);
      LineCharge(baseUrl, items[n - 1]);
      assert lines[n - 1] == BuildLineItem(baseUrl, items[n - 1]);
    }
  }

  /** The session request carries one line item per cart line and the fixed options; absent or
      empty redirect URLs fall back to the success and cancel pages of the base URL. */
  lemma SessionRequestDefaults(body: CheckoutBody, baseUrl: string, now: nat, created: Option<Session>)
    requires body.items.Some? && body.items.value != []
    ensures var req := Post(Some(body), baseUrl, now, created).sessionRequest;
      && req.Some?
      && req.value.lineItems == BuildLineItems(baseUrl, body.items.value)
      && req.value.paymentMethodTypes == ["card"] && req.value.mode == "payment"
      && req.value.customerCreation == "always" && req.value.locale == "pt-BR"
      && StartsWith(req.value.orderId, "LUMA-")
      && ((body.successUrl.None? || body.successUrl.value == "")
            ==> req.value.successUrl == baseUrl + "/success?session_id={CHECKOUT_SESSION_ID}")
      && ((body.successUrl.Some? && body.successUrl.value != "")
            ==> req.value.successUrl == body.successUrl.value)
      && ((body.cancelUrl.None? || body.cancelUrl.value == "")
            ==> req.value.cancelUrl == baseUrl + "/cancel")
      && ((body.cancelUrl.Some? && body.cancelUrl.value != "")
            ==> req.value.cancelUrl == body.cancelUrl.value)
  {
  }

  /** Requests made at different clock readings get different order ids. */
  lemma OrderIdsDiffer(now1: nat, now2: nat)
    requires now1 != now2
    ensures OrderId(now1) != OrderId(now2)
  {
    if OrderId(now1) == OrderId(now2) {
      assert NatToDecimal(now1) == OrderId(now1)[5..];
      assert NatToDecimal(now2) == OrderId(now2)[5..];
      DecimalInjective(now1, now2);
    }
  }
}
