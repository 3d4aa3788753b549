/**
 * The checkout-session endpoint (src/app/api/create-checkout-session/route.ts).
 *
 * A chain of early-return guards over the JSON body, then one request to
 * Stripe for a subscription-mode checkout session.  Stripe's
 * `checkout.sessions.create` is a function parameter: given the session
 * parameters it either creates a session (an id and a URL) or fails with
 * an error message.  The result records which session parameters, if
 * any, were sent to Stripe.
 */
module Checkout {
  import opened Wrappers

  /** The fields read from the JSON body; a field that is absent or null is None. */
  datatype Request = Request(planType: Option<string>, userId: Option<string>, userEmail: Option<string>)

  /** `STRIPE_PRICES`: the Stripe price id of each plan, read from the environment. */
  datatype Prices = Prices(monthly: string, annual: string)

  /** A request that passed both guards. */
  datatype Order = Order(planType: string, userId: string, userEmail: string)

  datatype LineItem = LineItem(price: string, quantity: nat)
  datatype Metadata = Metadata(userId: string, planType: string)

  /** The argument of `stripe.checkout.sessions.create`. */
  datatype SessionParams = SessionParams(
    mode: string,
    paymentMethodTypes: seq<string>,
    lineItems: seq<LineItem>,
    customerEmail: string,
    metadata: Metadata,
    successUrl: string,
    cancelUrl: string,
    subscriptionMetadata: Metadata)

  /** What Stripe answers: a created session, or a thrown error with its `message`. */
  datatype Creation = Created(id: string, url: string) | Failed(message: string)

  datatype Body = Error(error: string) | Session(sessionId: string, url: string)
  datatype Response = Response(status: int, body: Body)

  /** The response, and the session parameters sent to Stripe (none or one). */
  datatype Outcome = Outcome(response: Response, requested: seq<SessionParams>)

  const Incomplete := Response(400, Error("Dados incompletos"))
  const InvalidPlan := Response(400, Error("Plano inválido"))
  const DefaultFailureMessage := "Erro ao processar pagamento"

  /** JavaScript truthiness of a body field: present and not empty. */
  predicate Truthy(field: Option<string>)
  {
    field.Some? && field.value != ""
  }

  /** `planType && userId && userEmail`. */
  predicate Complete(req: Request)
  {
    Truthy(req.planType) && Truthy(req.userId) && Truthy(req.userEmail)
  }

  predicate IsPlan(planType: string)
  {
    planType == "monthly" || planType == "annual"
  }

  /** The two guards, in source order: completeness first, then the plan. */
  function Validate(req: Request): (r: Result<Order, Response>)
    ensures r.Success? <==> Complete(req) && IsPlan(req.planType.value)
    ensures !Complete(req) ==> r == Failure(Incomplete)
    ensures Complete(req) && !IsPlan(req.planType.value) ==> r == Failure(InvalidPlan)
    ensures r.Success? ==>
      r.value == Order(req.planType.value, req.userId.value, req.userEmail.value)
  {
    if !Truthy(req.planType) || !Truthy(req.userId) || !Truthy(req.userEmail) then
      Failure(Incomplete)
    else if !IsPlan(req.planType.value) then
      Failure(InvalidPlan)
    else
      Success(Order(req.planType.value, req.userId.value, req.userEmail.value))
  }

  /** `STRIPE_PRICES[planType]`. */
  function PriceFor(prices: Prices, planType: string): (price: string)
    requires IsPlan(planType)
    ensures planType == "monthly" ==> price == prices.monthly
    ensures planType == "annual" ==> price == prices.annual
  {
    if planType == "monthly" then prices.monthly else prices.annual
  }

  /** The text of `${req.headers.get('origin')}`: a missing header prints as "null". */
  function OriginText(origin: Option<string>): string
  {
    if origin.Some? then origin.value else "null"
  }

  /** `success_url`: the progress page, with Stripe's session-id placeholder. */
  function SuccessUrl(origin: Option<string>): (url: string)
    ensures OriginText(origin) <= url
    ensures url[|OriginText(origin)|..] == "/progress?session_id={CHECKOUT_SESSION_ID}"
  {
    OriginText(origin) + "/progress?session_id={CHECKOUT_SESSION_ID}"
  }

  /** `cancel_url`: the checkout page, echoing the plan and flagging the cancellation. */
  function CancelUrl(origin: Option<string>, planType: string): (url: string)
    ensures |url| == |OriginText(origin)| + |"/checkout?plan="| + |planType| + |"&canceled=true"|
    ensures OriginText(origin) <= url
  {
    OriginText(origin) + "/checkout?plan=" + planType + "&canceled=true"
  }

  /** The session parameters for a validated order. */
  function SessionFor(order: Order, origin: Option<string>, prices: Prices): (p: SessionParams)
    requires IsPlan(order.planType)
    ensures p.mode == "subscription" && p.paymentMethodTypes == ["card"]
    ensures p.lineItems == [LineItem(PriceFor(prices, order.planType), 1)]
    ensures p.successUrl == SuccessUrl(origin) && p.cancelUrl == CancelUrl(origin, order.planType)
    ensures p.customerEmail == order.userEmail
    ensures p.metadata == p.subscriptionMetadata == Metadata(order.userId, order.planType)
  {
    var meta := Metadata(order.userId, order.planType);
    SessionParams(
      "subscription", ["card"], [LineItem(PriceFor(prices, order.planType), 1)],
      order.userEmail, meta, SuccessUrl(origin), CancelUrl(origin, order.planType), meta)
  }

  /** The body of the `catch`: status 500 with the error's message, or a default one. */
  function Failure500(message: string): (r: Response)
    ensures r.status == 500 && r.body.Error? && r.body.error != ""
    ensures message != "" ==> r.body.error == message
    ensures message == "" ==> r.body.error == DefaultFailureMessage
  {
    Response(500, Error(if message != "" then message else DefaultFailureMessage))
  }

  /** `POST`.  `body` is what `req.json()` produced, or the message it threw with. */
  function Post(body: Result<Request, string>, origin: Option<string>, prices: Prices,
                create: SessionParams -> Creation): (r: Outcome)
    ensures |r.requested| <= 1
    ensures r.requested != [] <==> body.Success? && Validate(body.value).Success?
    ensures r.response.status == 200 <==> r.requested != [] && create(r.requested[0]).Created?
    ensures r.response.status == 200 ==>
      r.response.body == Session(create(r.requested[0]).id, create(r.requested[0]).url)
    ensures r.response.status in {200, 400, 500}
  {
    match body
    case Failure(message) => Outcome(Failure500(message), [])
    case Success(req) =>
      match Validate(req)
      case Failure(rejection) => Outcome(rejection, [])
      case Success(order) =>
        var params := SessionFor(order, origin, prices);
        match create(params)
        case Created(id, url) => Outcome(Response(200, Session(id, url)), [params])
        case Failed(message) => Outcome(Failure500(message), [params])
  }

  // ----- properties of the endpoint -----

  /** A request missing `planType`, `userId` or `userEmail` is rejected as
      incomplete, whatever its plan, and Stripe is not called. */
  lemma IncompleteRequestRejected(req: Request, origin: Option<string>, prices: Prices,
                                  create: SessionParams -> Creation)
    requires !Truthy(req.planType) || !Truthy(req.userId) || !Truthy(req.userEmail)
    ensures Post(Success(req), origin, prices, create) == Outcome(Incomplete, [])
  {
  }

  /** A complete request for a plan other than monthly or annual is rejected
      as an invalid plan, and Stripe is not called. */
  lemma UnknownPlanRejected(req: Request, origin: Option<string>, prices: Prices,
                            create: SessionParams -> Creation)
    requires Truthy(req.planType) && Truthy(req.userId) && Truthy(req.userEmail)
    requires !IsPlan(req.planType.value)
    ensures Post(Success(req), origin, prices, create) == Outcome(InvalidPlan, [])
  {
  }

  /** A valid request sends Stripe exactly one subscription-mode session with
      one line item of the plan's price and quantity 1, the user's email,
      `{userId, planType}` at both metadata levels, and the two redirect URLs. */
  lemma ValidRequestSession(req: Request, origin: Option<string>, prices: Prices,
                            create: SessionParams -> Creation)
    requires Validate(req).Success?
    ensures var r := Post(Success(req), origin, prices, create);
      && |r.requested| == 1
      && var p := r.requested[0];
      && p.mode == "subscription"
      && p.paymentMethodTypes == ["card"]
      && p.lineItems == [LineItem(PriceFor(prices, req.planType.value), 1)]
      && p.customerEmail == req.userEmail.value
      && p.metadata == Metadata(req.userId.value, req.planType.value)
      && p.subscriptionMetadata == p.metadata
      && p.successUrl == OriginText(origin) + "/progress?session_id={CHECKOUT_SESSION_ID}"
      && p.cancelUrl == OriginText(origin) + "/checkout?plan=" + req.planType.value + "&canceled=true"
  {
  }

  /** A valid request answers with Stripe's session id and URL when the
      session is created, and with 500 and Stripe's message (or the default
      message) when creation fails. */
  lemma ValidRequestResponse(req: Request, origin: Option<string>, prices: Prices,
                             create: SessionParams -> Creation)
    requires Validate(req).Success?
    ensures var r := Post(Success(req), origin, prices, create);
      match create(r.requested[0])
      case Created(id, url) => r.response == Response(200, Session(id, url))
      case Failed(m) =>
        r.response.status == 500
        && r.response.body.error == (if m == "" then "Erro ao processar pagamento" else m)
  {
    ValidRequestSession(req, origin, prices, create);
  }

  /** A body that does not parse as JSON gives 500 and no Stripe call. */
  lemma MalformedBodyFails(message: string, origin: Option<string>, prices: Prices,
                           create: SessionParams -> Creation)
    ensures var r := Post(Failure(message), origin, prices, create);
      && r.requested == [] && r.response == Failure500(message)
      && r.response.status == 500
      && r.response.body == Error(if message != "" then message else DefaultFailureMessage)
  {
  }

  /** The prefix of the cancel URL that precedes the plan. */
  function CancelPrefix(origin: Option<string>): string
  {
    OriginText(origin) + "/checkout?plan="
  }

  /** Reads the plan back out of a cancel URL. */
  function PlanInCancelUrl(origin: Option<string>, url: string): Option<string>
  {
    var prefix := CancelPrefix(origin);
    var suffix := "&canceled=true";
    if |url| >= |prefix| + |suffix| && url[..|prefix|] == prefix && url[|url| - |suffix|..] == suffix
    then Some(url[|prefix|..|url| - |suffix|])
    else None
  }

  /** The cancel URL echoes the plan: it can be read back unchanged. */
  lemma CancelUrlEchoesPlan(origin: Option<string>, planType: string)
    ensures PlanInCancelUrl(origin, CancelUrl(origin, planType)) == Some(planType)
  {
    var prefix := CancelPrefix(origin);
    var url := CancelUrl(origin, planType);
    assert url == prefix + planType + "&canceled=true";
    assert url[..|prefix|] == prefix;
    assert url[|prefix|..|url| - 14] == planType;
  }

  /** The annual scenario: plan "annual" for user "u1" is priced with the
      configured annual price and tagged `{userId: "u1", planType: "annual"}`. */
  lemma AnnualScenario(origin: Option<string>, prices: Prices, create: SessionParams -> Creation)
    ensures var r := Post(Success(Request(Some("annual"), Some("u1"), Some("u1@x.com"))),
                          origin, prices, create);
      && |r.requested| == 1
      && r.requested[0].lineItems == [LineItem(prices.annual, 1)]
      && r.requested[0].metadata == Metadata("u1", "annual")
      && r.requested[0].subscriptionMetadata == Metadata("u1", "annual")
  {
  }
}
