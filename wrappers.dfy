/** Small value wrappers shared by every module of the model. */
module Wrappers {

  /** A value that may be missing (an optional column, an absent header). */
  datatype Option<+T> = None | Some(value: T)

  /** A JavaScript property read: the key is absent (`undefined`), holds `null`, or holds a value.
      The distinction matters when the object is serialised: `JSON.stringify` drops
      `undefined` members but keeps `null` ones. */
  datatype Nullable<+T> = Undefined | Null | Present(value: T)

  /** JavaScript truthiness of an optional string: `undefined`, `null` and `""` are falsy. */
  predicate Truthy(s: Option<string>)
  {
    s.Some? && s.value != ""
  }
}

/** The responses an edge function sends back. */
module EdgeHttp {

  datatype Body =
    | Received                      // `{ received: true }`
    | SignatureRejected             // the plain text "Webhook signature verification failed"
    | SessionCreated(sessionId: string)  // `{ sessionId }`
    | ErrorMessage(message: string) // `{ error: error.message }` from an outer `catch`

  datatype Response = Response(status: int, body: Body)

  const Ok := 200
  const BadRequest := 400

  /** What both handlers throw when they evaluate `Stripe.createFetchHttpClient()`:
      the name `Stripe` is bound nowhere in their files. */
  const StripeUnbound := "Stripe is not defined"
}
