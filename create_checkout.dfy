/** The `create-checkout` edge function: it opens a payment session for one
    price, then records a `pending` order keyed by the returned session id.

    Session creation is a function from the parameters the handler sends to
    what the provider answers; the other collaborators (parsing the JSON body,
    constructing the two clients, the insert) are inputs that say whether that
    step throws or fails. The id and creation time of a new row are assigned by
    the database and are inputs too. */
module CreateCheckout {
  import opened Wrappers
  import opened EdgeHttp
  import opened OrderStore

  /** The JSON body `{ priceId, productName, successUrl, cancelUrl }`; a member
      that is missing or `null` is None. */
  datatype CheckoutRequest = CheckoutRequest(
    priceId: Option<string>,
    productName: Option<string>,
    successUrl: Option<string>,
    cancelUrl: Option<string>)

  datatype LineItem = LineItem(price: Option<string>, quantity: int)

  /** The argument of `checkout.sessions.create`. */
  datatype SessionParams = SessionParams(
    paymentMethodTypes: seq<string>,
    lineItems: seq<LineItem>,
    mode: string,
    successUrl: string,
    cancelUrl: string,
    metadataProductName: Option<string>)

  /** What session creation answers: the session id and its `amount_total`, or
      the message of the error it throws. */
  datatype SessionResult = Created(id: string, amountTotal: int) | Threw(message: string)

  datatype Deps = Deps(
    body: Option<CheckoutRequest>,     // None when `req.json()` throws ...
    bodyError: string,                 // ... with this message
    origin: Option<string>,            // the `origin` request header
    stripeClientError: Option<string>,
    storeClientError: Option<string>,
    insertFails: bool,
    newOrderId: string,
    now: string)

  const SessionIdPlaceholder := "{CHECKOUT_SESSION_ID}"
  const SuccessPath := "/success?session_id=" + SessionIdPlaceholder
  const CancelPath := "/shop"

  /** A template literal renders a missing header as `null`. */
  function OriginText(origin: Option<string>): string
  {
    if origin.Some? then origin.value else "null"
  }

  /** The success page of the requesting site, with the placeholder the
      provider replaces by the session id. */
  function DefaultSuccessUrl(origin: Option<string>): (url: string)
    ensures OriginText(origin) <= url
    ensures EndsWith(url, SuccessPath)
  {
    Affixes(OriginText(origin), SuccessPath);
    OriginText(origin) + SuccessPath
  }

  /** The shop page of the requesting site. */
  function DefaultCancelUrl(origin: Option<string>): (url: string)
    ensures OriginText(origin) <= url
    ensures EndsWith(url, CancelPath)
  {
    Affixes(OriginText(origin), CancelPath);
    OriginText(origin) + CancelPath
  }

  /** `supplied || fallback`: a missing or empty URL takes the default, any other
      passes through unchanged. */
  function ResolveUrl(supplied: Option<string>, fallback: string): (r: string)
    ensures Truthy(supplied) ==> r == supplied.value
    ensures !Truthy(supplied) ==> r == fallback
    ensures fallback != "" ==> r != ""
  {
    if Truthy(supplied) then supplied.value else fallback
  }

  /** The session the handler asks for: card payment, one line of the requested
      price with quantity 1, and the resolved redirect URLs. */
  function SessionFor(req: CheckoutRequest, origin: Option<string>): (s: SessionParams)
    ensures s.lineItems == [LineItem(req.priceId, 1)]
    ensures s.paymentMethodTypes == ["card"] && s.mode == "payment"
    ensures s.successUrl == ResolveUrl(req.successUrl, DefaultSuccessUrl(origin))
    ensures s.cancelUrl == ResolveUrl(req.cancelUrl, DefaultCancelUrl(origin))
    ensures s.metadataProductName == req.productName
  {
    SessionParams(["card"], [LineItem(req.priceId, 1)], "payment",
                  ResolveUrl(req.successUrl, DefaultSuccessUrl(origin)),
                  ResolveUrl(req.cancelUrl, DefaultCancelUrl(origin)),
                  req.productName)
  }

  /** The row recorded for a new session. */
  function PendingOrder(id: string, sessionId: string, amount: int, now: string): (o: Order)
    ensures o.status == Pending && o.customerEmail.None?
    ensures o.stripeSessionId == Some(sessionId) && o.totalCents == amount
    ensures o.id == id && o.createdAt == now
  {
    Order(id, Some(sessionId), None, amount, Pending, now)
  }

  /** The handler's answer and the row it inserts, if any. */
  function CheckoutOutcome(d: Deps, gateway: SessionParams -> SessionResult): (r: (Response, Option<Order>))
    ensures r.0.status == Ok || r.0.status == BadRequest
    ensures r.1.Some? ==> r.0.status == Ok
    ensures r.0.status == Ok <==>
              d.body.Some? && d.stripeClientError.None? && d.storeClientError.None? &&
              gateway(SessionFor(d.body.value, d.origin)).Created?
    ensures r.0.status == Ok ==>
              var session := gateway(SessionFor(d.body.value, d.origin));
              r.0.body == SessionCreated(session.id) &&
              r.1 == if d.insertFails then None
                     else Some(PendingOrder(d.newOrderId, session.id, session.amountTotal, d.now))
  {
    if d.body.None? then (Response(BadRequest, ErrorMessage(d.bodyError)), None)
    else if d.stripeClientError.Some? then (Response(BadRequest, ErrorMessage(d.stripeClientError.value)), None)
    else if d.storeClientError.Some? then (Response(BadRequest, ErrorMessage(d.storeClientError.value)), None)
    else
      match gateway(SessionFor(d.body.value, d.origin))
      case Threw(message) => (Response(BadRequest, ErrorMessage(message)), None)
      case Created(id, amount) =>
        var row := if d.insertFails then None else Some(PendingOrder(d.newOrderId, id, amount, d.now));
        (Response(Ok, SessionCreated(id)), row)
  }

  /** The handler: at most one row is appended, and no existing row changes. */
  method HandleCheckout(table: OrderTable, d: Deps, gateway: SessionParams -> SessionResult) returns (resp: Response)
    modifies table
    ensures resp == CheckoutOutcome(d, gateway).0
    ensures var row := CheckoutOutcome(d, gateway).1;
            table.rows == old(table.rows) + (if row.Some? then [row.value] else [])
  {
    if d.body.None? {
      return Response(BadRequest, ErrorMessage(d.bodyError));
    }
    var req := d.body.value;
    if d.stripeClientError.Some? {
      return Response(BadRequest, ErrorMessage(d.stripeClientError.value));
    }
    if d.storeClientError.Some? {
      return Response(BadRequest, ErrorMessage(d.storeClientError.value));
    }
    var session := gateway(SessionFor(req, d.origin));
    if session.Threw? {
      return Response(BadRequest, ErrorMessage(session.message));
    }
    if !d.insertFails {
      table.Insert(PendingOrder(d.newOrderId, session.id, session.amountTotal, d.now));
    }
    resp := Response(Ok, SessionCreated(session.id));
  }

  /** The handler as written: once the body parses, constructing the provider
      client throws on the unbound name `Stripe`, so no session is opened and
      no order is recorded, whatever the request and the provider. */
  function CheckoutOutcomeAsWritten(d: Deps, gateway: SessionParams -> SessionResult): (r: (Response, Option<Order>))
    ensures r.1 == None && r.0.status == BadRequest
    ensures d.body.Some? ==> r.0 == Response(BadRequest, ErrorMessage(StripeUnbound))
  {
    CheckoutOutcome(d.(stripeClientError := Some(StripeUnbound)), gateway)
  }

  /** The session id the caller receives is the session id of the recorded row,
      which is `pending`, has no email and carries the provider's total. */
  lemma ReturnedIdKeysInsertedRow(d: Deps, gateway: SessionParams -> SessionResult)
    requires CheckoutOutcome(d, gateway).1.Some?
    ensures var (resp, row) := CheckoutOutcome(d, gateway);
            resp.body.SessionCreated? && row.value.stripeSessionId == Some(resp.body.sessionId) &&
            row.value.status == Pending && row.value.customerEmail == None &&
            row.value.totalCents == gateway(SessionFor(d.body.value, d.origin)).amountTotal
  {
  }

  /** When session creation throws nothing is recorded and the answer is 400. */
  lemma GatewayFailureRecordsNothing(d: Deps, gateway: SessionParams -> SessionResult)
    requires d.body.Some? && gateway(SessionFor(d.body.value, d.origin)).Threw?
    ensures CheckoutOutcome(d, gateway).0.status == BadRequest
    ensures CheckoutOutcome(d, gateway).1 == None
  {
  }

  /** A failed insert is only logged: the caller still gets 200 and the session
      id, while no row records that session. */
  lemma InsertFailureStillAnswersOk(d: Deps, gateway: SessionParams -> SessionResult)
    requires d.insertFails
    ensures CheckoutOutcome(d, gateway).1 == None
    ensures CheckoutOutcome(d, gateway).0.status == Ok ==> CheckoutOutcome(d, gateway).0.body.SessionCreated?
  {
  }

  /** `EndsWith(s, suffix)`: `suffix` is the tail of `s`. */
  predicate EndsWith(s: string, suffix: string)
  {
    |suffix| <= |s| && s[|s| - |suffix|..] == suffix
  }

  /** A concatenation begins with its first part and ends with its second. */
  lemma Affixes(x: string, y: string)
    ensures x <= x + y && EndsWith(x + y, y)
  {
  }

  /** The body the storefront posts, as written: the success URL is the bare
      `/success` page of the site. */
  function StorefrontRequest(siteOrigin: string, priceId: Option<string>, productName: Option<string>): CheckoutRequest
  {
    CheckoutRequest(priceId, productName, Some(siteOrigin + "/success"), Some(siteOrigin + "/shop"))
  }

  /** As written, the storefront's success URL overrides the default, so the
      session's success URL carries no session-id placeholder and the success
      page, which looks the order up by `session_id`, never receives one. */
  lemma StorefrontSuccessUrlLosesSessionId(siteOrigin: string, priceId: Option<string>,
                                            productName: Option<string>, origin: Option<string>)
    ensures var url := SessionFor(StorefrontRequest(siteOrigin, priceId, productName), origin).successUrl;
            url == siteOrigin + "/success" && url != DefaultSuccessUrl(origin) &&
            !EndsWith(url, SessionIdPlaceholder)
  {
    var url := siteOrigin + "/success";
    assert url[|url| - 1] == 's';
    var t := DefaultSuccessUrl(origin);
    assert t[|t| - 1] == '}';
  }

  /** The storefront body with the success URL the success page expects. */
  function StorefrontRequestCorrected(siteOrigin: string, priceId: Option<string>, productName: Option<string>): CheckoutRequest
  {
    CheckoutRequest(priceId, productName, Some(siteOrigin + "/success?session_id=" + SessionIdPlaceholder),
                    Some(siteOrigin + "/shop"))
  }

  /** With the corrected body the session's success URL ends in the placeholder
      the provider replaces with the session id, after `session_id=`. */
  lemma StorefrontSuccessUrlCarriesSessionId(siteOrigin: string, priceId: Option<string>,
                                             productName: Option<string>, origin: Option<string>)
    ensures var url := SessionFor(StorefrontRequestCorrected(siteOrigin, priceId, productName), origin).successUrl;
            url == siteOrigin + "/success?session_id=" + SessionIdPlaceholder &&
            EndsWith(url, "session_id=" + SessionIdPlaceholder)
  {
    var url := siteOrigin + "/success?session_id=" + SessionIdPlaceholder;
    assert url[|url| - |"session_id=" + SessionIdPlaceholder|..] == "session_id=" + SessionIdPlaceholder;
  }
}
