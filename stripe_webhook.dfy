/** The `stripe-webhook` edge function: it verifies the event's signature, then
    rewrites the `orders` rows of the event's payment session.

    The payment provider's library calls are inputs: constructing its client can
    throw, and `constructEvent` either yields a verified event or throws. The
    update is a plain assignment over every matching row, without a guard on the
    current status, and a store error is only logged. */
module StripeWebhook {
  import opened Wrappers
  import opened EdgeHttp
  import opened OrderStore

  const CheckoutSessionCompleted := "checkout.session.completed"
  const PaymentIntentPaymentFailed := "payment_intent.payment_failed"

  /** `event.data.object`, reduced to what the handler reads: the session `id`,
      `customer_details?.email` and `metadata?.session_id`. */
  datatype EventObject = EventObject(
    id: Option<string>,
    customerEmail: Nullable<string>,
    metadataSessionId: Option<string>)

  datatype Event = Event(eventType: string, data: EventObject)

  /** What the handler's collaborators do on this delivery. */
  datatype Deps = Deps(
    stripeClientError: Option<string>,  // message thrown while constructing the provider client
    verified: Option<Event>,            // `constructEvent(body, signature, secret)`; None when it throws
    storeClientError: Option<string>,   // message thrown by `createClient`
    updateFails: bool)                  // the store answers the update with an error

  /** The store update an event asks for: the session key and the update body,
      or None for an event type the handler does not handle. */
  function Dispatch(e: Event): (u: Option<(Option<string>, Patch)>)
    ensures e.eventType == CheckoutSessionCompleted ==>
              u == Some((e.data.id, Patch(Completed, e.data.customerEmail)))
    ensures e.eventType == PaymentIntentPaymentFailed ==>
              u == Some((e.data.metadataSessionId, Patch(Failed, Undefined)))
    ensures u.None? <==> e.eventType !in {CheckoutSessionCompleted, PaymentIntentPaymentFailed}
  {
    if e.eventType == CheckoutSessionCompleted then
      Some((e.data.id, Patch(Completed, e.data.customerEmail)))
    else if e.eventType == PaymentIntentPaymentFailed then
      Some((e.data.metadataSessionId, Patch(Failed, Undefined)))
    else
      None
  }

  /** The table after a verified event has been applied. */
  function Settle(rows: seq<Order>, e: Event): (r: seq<Order>)
    ensures |r| == |rows|
    ensures Dispatch(e).None? ==> r == rows
  {
    match Dispatch(e)
    case None => rows
    case Some((key, p)) => UpdateWhere(rows, key, p)
  }

  /** The handler. Every path that reaches the end answers 200, whatever the
      store said; the outer `catch` and a rejected signature answer 400 and
      leave the table alone. */
  method HandleWebhook(table: OrderTable, d: Deps) returns (resp: Response)
    modifies table
    ensures d.stripeClientError.Some? ==>
              resp == Response(BadRequest, ErrorMessage(d.stripeClientError.value)) &&
              table.rows == old(table.rows)
    ensures d.stripeClientError.None? && d.verified.None? ==>
              resp == Response(BadRequest, SignatureRejected) && table.rows == old(table.rows)
    ensures d.stripeClientError.None? && d.verified.Some? && d.storeClientError.Some? ==>
              resp == Response(BadRequest, ErrorMessage(d.storeClientError.value)) &&
              table.rows == old(table.rows)
    ensures d.stripeClientError.None? && d.verified.Some? && d.storeClientError.None? ==>
              resp == Response(Ok, Received) &&
              table.rows == if d.updateFails then old(table.rows) else Settle(old(table.rows), d.verified.value)
  {
    if d.stripeClientError.Some? {
      return Response(BadRequest, ErrorMessage(d.stripeClientError.value));
    }
    if d.verified.None? {
      return Response(BadRequest, SignatureRejected);
    }
    if d.storeClientError.Some? {
      return Response(BadRequest, ErrorMessage(d.storeClientError.value));
    }
    var event := d.verified.value;
    var update := Dispatch(event);
    if update.Some? && !d.updateFails {
      var (key, p) := update.value;
      table.UpdateBySession(key, p);
    }
    resp := Response(Ok, Received);
  }

  /** The handler as written: constructing the provider client evaluates the
      unbound name `Stripe` and throws, so every delivery, a valid completion
      included, is answered 400 before the signature is checked, and no row changes. */
  method HandleWebhookAsWritten(table: OrderTable, d: Deps) returns (resp: Response)
    modifies table
    ensures resp == Response(BadRequest, ErrorMessage(StripeUnbound))
    ensures table.rows == old(table.rows)
  {
    resp := HandleWebhook(table, d.(stripeClientError := Some(StripeUnbound)));
  }

  /** A completion event sets every row of its session to `completed`, writes the
      event's email (keeps the column when the event has none), and changes no
      other column and no other row. */
  lemma CompletionSettlesSession(rows: seq<Order>, e: Event, k: int)
    requires e.eventType == CheckoutSessionCompleted
    requires 0 <= k < |rows|
    ensures |Settle(rows, e)| == |rows|
    ensures rows[k].stripeSessionId == e.data.id && e.data.id.Some? ==>
              Settle(rows, e)[k].status == Completed &&
              Settle(rows, e)[k].customerEmail == (match e.data.customerEmail
                                                   case Undefined => rows[k].customerEmail
                                                   case Null => None
                                                   case Present(m) => Some(m))
    ensures !(rows[k].stripeSessionId == e.data.id && e.data.id.Some?) ==> Settle(rows, e)[k] == rows[k]
    ensures SameIdentity(Settle(rows, e)[k], rows[k])
  {
  }

  /** A failure event sets the rows named by `metadata.session_id` to `failed`
      and leaves their email and total alone; other rows do not change. */
  lemma FailureSettlesSession(rows: seq<Order>, e: Event, k: int)
    requires e.eventType == PaymentIntentPaymentFailed
    requires 0 <= k < |rows|
    ensures |Settle(rows, e)| == |rows|
    ensures rows[k].stripeSessionId == e.data.metadataSessionId && e.data.metadataSessionId.Some? ==>
              Settle(rows, e)[k] == rows[k].(status := Failed)
    ensures !(rows[k].stripeSessionId == e.data.metadataSessionId && e.data.metadataSessionId.Some?) ==>
              Settle(rows, e)[k] == rows[k]
  {
  }

  /** No event ever writes an id, a session id, a total or a creation time,
      nor adds or removes a row. */
  lemma SettleKeepsIdentity(rows: seq<Order>, e: Event)
    ensures |Settle(rows, e)| == |rows|
    ensures forall k :: 0 <= k < |rows| ==> SameIdentity(Settle(rows, e)[k], rows[k])
  {
  }

  /** An event type the handler does not handle changes nothing. */
  lemma UnhandledEventChangesNothing(rows: seq<Order>, e: Event)
    requires e.eventType != CheckoutSessionCompleted && e.eventType != PaymentIntentPaymentFailed
    ensures Settle(rows, e) == rows
  {
  }

  /** An event whose session matches no row changes nothing. */
  lemma UnknownSessionChangesNothing(rows: seq<Order>, e: Event)
    requires e.eventType == CheckoutSessionCompleted ==> forall k :: 0 <= k < |rows| ==> !Matches(rows[k], e.data.id)
    requires e.eventType == PaymentIntentPaymentFailed ==>
               forall k :: 0 <= k < |rows| ==> !Matches(rows[k], e.data.metadataSessionId)
    ensures Settle(rows, e) == rows
  {
    match Dispatch(e)
    case None =>
    case Some((key, p)) => NoMatchLeavesTable(rows, key, p);
  }

  /** A redelivered event leaves the table as the first delivery left it. */
  lemma SettleIdempotent(rows: seq<Order>, e: Event)
    ensures Settle(Settle(rows, e), e) == Settle(rows, e)
  {
    match Dispatch(e)
    case None =>
    case Some((key, p)) => UpdateIdempotent(rows, key, p);
  }

  /** There is no guard on the current status: of a completion and a failure for
      the same session, whichever is applied last decides the status of the
      session's rows. The completion's email survives a later failure. */
  lemma LastEventWins(rows: seq<Order>, done: Event, fail: Event, k: int)
    requires done.eventType == CheckoutSessionCompleted && fail.eventType == PaymentIntentPaymentFailed
    requires done.data.id.Some? && fail.data.metadataSessionId == done.data.id
    requires 0 <= k < |rows| && rows[k].stripeSessionId == done.data.id
    ensures Settle(Settle(rows, done), fail)[k] == Settle(rows, done)[k].(status := Failed)
    ensures Settle(Settle(rows, fail), done)[k] == Settle(rows, done)[k]
    ensures Settle(Settle(rows, fail), done)[k].status == Completed
  {
    var key := done.data.id;
    var pd := Patch(Completed, done.data.customerEmail);
    var pf := Patch(Failed, Undefined);
    UpdatesCompose(rows, key, pf, pd);
    assert Then(pf, pd) == pd;
  }
}
