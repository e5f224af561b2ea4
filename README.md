# Orders, checkout and settlement of the storefront, in Dafny

This project models the order lifecycle of the storefront. Two edge functions
share one `orders` table:

- `create-checkout` opens a payment session for one price. It then records a
  `pending` order keyed by the session id that the payment provider returns.
- `stripe-webhook` verifies an event from the provider. It then rewrites the
  rows of the event's session to `completed`, together with the customer's
  email, or to `failed`.

Beside that core it models the smaller pieces of the site that compute
something:

- the preview database client used when no connection settings are configured
  (mock mode);
- the admin dashboard's statistics;
- the shop's category list, category filter, buy button and line amounts;
- the about page's team carousel, flipped cards and initials;
- the song section's `m:ss` time label and background mode.

Files:

- `wrappers.dfy`: `Option`, `Nullable` (JavaScript's `undefined`, `null` or a
  value), JavaScript truthiness, and the HTTP answers of the edge functions.
- `order_store.dfy`: the `Order` row, the update body, the specification of
  `update(...).eq('stripe_session_id', key)`, and the class `OrderTable`. The
  class holds the rows and has methods for insert and for update.
- `stripe_webhook.dfy` and `create_checkout.dfy`: the two handlers. Each is a
  method that changes an `OrderTable`. Each is proved against a function of
  the old table and the handler's inputs.
- `mock_client.dfy`: rows and the strict-equality filter (`Rows`), and the mock rows and query chain of the mock client (`MockClient`).
- `dashboard.dfy`, `shop.dfy`, `about.dfy`, `song_section.dfy`: the pages.
- `js_number.dfy`: JavaScript's truncating `%`, the 32-bit conversion of
  `x | 0`, and decimal text.

The pages read rows as typed records (`OrderStore.Order`, `Shop.Product`,
`About.Cofounder`), while the mock client answers with column maps (`Rows.Row`).
Only orders are converted (`Dashboard.OrderOf`), because the dashboard's
statistics are the one place where the model states facts about mock rows
that a page reads. The shop and about pages are modelled on their records
whatever the rows came from, so none of their properties needs a conversion.

Calls into code that is not visible become inputs of the handlers:

- constructing the provider client, which can throw;
- `constructEvent`, which yields a verified event or throws;
- `createClient`;
- the result of the insert or the update;
- the new row's id and creation time;
- session creation, a function from the requested parameters to the
  provider's answer.

Two behaviours of the handlers that the model keeps as the code has them:

- The update has no guard on the current status. So a failure that arrives
  after a completion turns the row to `failed`, and the last event to arrive
  wins (`StripeWebhook.LastEventWins`). Redelivering the same event is still
  harmless (`StripeWebhook.SettleIdempotent`).
- A store error is only logged. The webhook still answers 200
  (`StripeWebhook.HandleWebhook`). The checkout answers 200 with the session
  id, and no row records that session (`CreateCheckout.InsertFailureStillAnswersOk`).

## Model

| member | source | states |
|---|---|---|
| OrderStore.Patched | supabase/functions/stripe-webhook/index.ts:53-56 | the update writes the status, and writes the email only when the body carries one (`null` clears it); no other column changes |
| OrderStore.UpdateWhere | supabase/functions/stripe-webhook/index.ts:51-57 | the row count stays the same; every row whose `stripe_session_id` equals the key gets the body; every other row is unchanged; no id, session id, total or creation time is written |
| OrderStore.NoMatchLeavesTable | supabase/functions/stripe-webhook/index.ts:57 | an update whose key matches no row leaves the table equal to what it was |
| OrderStore.UpdatesCompose | supabase/functions/stripe-webhook/index.ts:51-57 | two updates on one key equal one update whose body lays the second body over the first |
| OrderStore.UpdateIdempotent | supabase/functions/stripe-webhook/index.ts:51-57 | applying the same update twice gives the same table as applying it once |
| OrderStore.OrderTable.Insert | supabase/functions/create-checkout/index.ts:51-59 | the new row is appended and every existing row is kept |
| OrderStore.OrderTable.UpdateBySession | supabase/functions/stripe-webhook/index.ts:51-57 | the row-by-row loop leaves exactly the table `UpdateWhere` specifies |
| StripeWebhook.Dispatch | supabase/functions/stripe-webhook/index.ts:46-80 | a completion updates by the session `id` with status `completed` and the event's email; a failure updates by `metadata.session_id` with status `failed` and no email; any other type asks for no update, and only those types |
| StripeWebhook.Settle | supabase/functions/stripe-webhook/index.ts:46-80 | a verified event never changes the number of rows, and an event type the switch does not handle leaves the table as it was |
| StripeWebhook.HandleWebhook | supabase/functions/stripe-webhook/index.ts:10-96 | a client-construction throw gives 400 with its message; a rejected signature gives 400 before any store client exists; a `createClient` throw gives 400; all three leave the table unchanged; otherwise the answer is 200 `{received: true}`, and the table is the settled table, or unchanged when the store reports an error |
| StripeWebhook.HandleWebhookAsWritten | supabase/functions/stripe-webhook/index.ts:20-26 | with `Stripe` unbound, every delivery is answered 400 with "Stripe is not defined" and no row changes |
| StripeWebhook.CompletionSettlesSession | supabase/functions/stripe-webhook/index.ts:47-57 | every row of the completed session becomes `completed` with the event's email; other rows are unchanged; identity columns are never written |
| StripeWebhook.FailureSettlesSession | supabase/functions/stripe-webhook/index.ts:64-71 | the rows named by `metadata.session_id` become `failed` with email and total unchanged; other rows are unchanged |
| StripeWebhook.SettleKeepsIdentity | supabase/functions/stripe-webhook/index.ts:51-57 | no event adds or removes a row, and no event writes `total_cents`, `id`, `stripe_session_id` or `created_at` |
| StripeWebhook.UnhandledEventChangesNothing | supabase/functions/stripe-webhook/index.ts:78-79 | an event type not handled leaves the table as it was |
| StripeWebhook.UnknownSessionChangesNothing | supabase/functions/stripe-webhook/index.ts:51-57 | an event whose session matches no row leaves the table as it was |
| StripeWebhook.SettleIdempotent | supabase/functions/stripe-webhook/index.ts:51-57 | a redelivered event leaves the table as the first delivery left it |
| StripeWebhook.LastEventWins | supabase/functions/stripe-webhook/index.ts:51-57 | with no status guard, a failure after a completion leaves the row `failed` but keeps the email; a completion after a failure leaves it `completed` |
| CreateCheckout.DefaultSuccessUrl | supabase/functions/create-checkout/index.ts:43 | the default success URL starts with the request's origin and ends with `/success?session_id=` and the session-id placeholder |
| CreateCheckout.DefaultCancelUrl | supabase/functions/create-checkout/index.ts:44 | the default cancel URL starts with the request's origin and ends with `/shop` |
| CreateCheckout.ResolveUrl | supabase/functions/create-checkout/index.ts:43-44 | a missing or empty redirect URL takes the default; any other is passed through unchanged |
| CreateCheckout.SessionFor | supabase/functions/create-checkout/index.ts:34-48 | the session asks for card payment, one line of the requested price with quantity 1, the resolved redirect URLs and the product name as metadata |
| CreateCheckout.PendingOrder | supabase/functions/create-checkout/index.ts:51-59 | the recorded row is `pending`, has no email, and carries the session id and the provider's total |
| CreateCheckout.CheckoutOutcome | supabase/functions/create-checkout/index.ts:15-81 | the answer is 200 or 400; it is 200 exactly when the body parses, both clients construct and the session is created; then the body carries the session id and a `pending` row with the session id and total is recorded unless the insert fails; on 400 nothing is recorded |
| CreateCheckout.HandleCheckout | supabase/functions/create-checkout/index.ts:15-81 | the method answers as `CheckoutOutcome` says and appends at most that one row, keeping every existing row |
| CreateCheckout.CheckoutOutcomeAsWritten | supabase/functions/create-checkout/index.ts:19-25 | with `Stripe` unbound, every request is answered 400 and no order is recorded |
| CreateCheckout.ReturnedIdKeysInsertedRow | supabase/functions/create-checkout/index.ts:51-59 | the session id returned to the caller keys the recorded row, which is `pending`, has no email and carries the provider's total |
| CreateCheckout.GatewayFailureRecordsNothing | supabase/functions/create-checkout/index.ts:34-48 | when session creation throws, the answer is 400 and no row is recorded |
| CreateCheckout.InsertFailureStillAnswersOk | supabase/functions/create-checkout/index.ts:61-71 | a failed insert is only logged: no row records the session, yet a 200 answer still carries the session id |
| CreateCheckout.StorefrontSuccessUrlLosesSessionId | src/lib/stripe.ts:28-33 | the storefront's success URL `origin/success` replaces the default, so the session's success URL carries no session-id placeholder |
| CreateCheckout.StorefrontSuccessUrlCarriesSessionId | supabase/functions/create-checkout/index.ts:43 | a success URL ending in `session_id={CHECKOUT_SESSION_ID}` reaches the session unchanged |
| MockClient.MockMode | src/lib/supabase.ts:4 | mock mode holds exactly when the URL or the anonymous key is missing or empty |
| Rows.FilterEq | src/lib/supabase.ts:23 | the filter keeps exactly the rows whose column strictly equals the value |
| Rows.FilterEqAppend | src/lib/supabase.ts:23 | the filter keeps the relative order of rows |
| Rows.FilterEqAllMatch | src/lib/supabase.ts:23 | when every row has the value, the filter returns the rows unchanged |
| MockClient.MockData | src/lib/supabase.ts:51-297 | an unknown table has no rows |
| MockClient.NewsletterMockSize | src/lib/supabase.ts:287-292 | the mock newsletter table has 3 rows |
| MockClient.ProductsMockSize | src/lib/supabase.ts:178-257 | the mock products table has 7 rows |
| MockClient.Select | src/lib/supabase.ts:16 | `select` ignores its column list and keeps the table |
| MockClient.Eq | src/lib/supabase.ts:21 | `eq` keeps the table and records the column and value to filter on |
| MockClient.Order | src/lib/supabase.ts:17-25 | `order` ignores its arguments and resolves with the mock rows, filtered when the chain has an `eq`, and a `null` error |
| MockClient.EqQueryFilters | src/lib/supabase.ts:16-25 | a `select`, `eq`, `order` chain resolves with exactly the mock rows whose column strictly equals the value |
| MockClient.Insert | src/lib/supabase.ts:28-31 | `insert` resolves with `null` data and a `null` error |
| MockClient.OrdersQueryReadsMockOrders | src/lib/supabase.ts:17-20 | `select('*')` on `orders`, ordered by any column, resolves with the three mock orders |
| MockClient.Await | src/lib/supabase.ts:14-32 | awaiting a stage that is not a promise yields undefined `data` and `error` |
| MockClient.InsertIsInert | src/lib/supabase.ts:28-31 | an insert reports no error, and later reads still return the fixed mock rows |
| MockClient.AwaitThenable | src/lib/supabase.ts:16-26 | the corrected mock: awaiting a `select` or `eq` stage runs the query as `order` would |
| Dashboard.CountOf | src/pages/Dashboard.tsx:49-52 | a count is the number of rows, and 0 when `data` is missing |
| Dashboard.Revenue | src/pages/Dashboard.tsx:50 | the `reduce` sum of `total_cents` is never negative when no total is |
| Dashboard.TotalRevenue | src/pages/Dashboard.tsx:50 | revenue is the left-to-right sum of `total_cents`, and 0 when `data` is missing |
| Dashboard.RevenueAppend | src/pages/Dashboard.tsx:50 | revenue adds up over consecutive stretches of the order list |
| Dashboard.RevenueIgnoresStatus | src/pages/Dashboard.tsx:50 | revenue counts every order whatever its status |
| Dashboard.RecentOrders | src/pages/Dashboard.tsx:53 | the recent orders are the first five, or all of them when fewer, as a prefix of the list |
| Dashboard.RecentAreNewest | src/pages/Dashboard.tsx:33-36 | on a list sorted newest first, no order left out is newer than a recent one |
| Dashboard.Aggregate | src/pages/Dashboard.tsx:49-61 | the statistics are built from the three fetch results |
| Dashboard.DashboardView.FetchDashboardData | src/pages/Dashboard.tsx:30-67 | a throw keeps the previous statistics; otherwise the statistics are aggregated; `loading` ends false either way |
| Dashboard.FirstFetchThrows | src/pages/Dashboard.tsx:20-27 | when the first fetch throws, every statistic stays 0 and loading ends |
| Dashboard.AllMockProductsActive | src/lib/supabase.ts:178-257 | every mock product is active |
| Dashboard.MockCountsAsWritten | src/pages/Dashboard.tsx:39-52 | in mock mode the subscriber and product counts are 0, while the mock tables hold 3 subscribers and 7 active products |
| Dashboard.MockCountsCorrected | src/pages/Dashboard.tsx:39-52 | with thenable `select` and `eq` stages the counts are 3 and 7 |
| Dashboard.OrderOfOrderRow | src/lib/supabase.ts:259-285 | a mock order row read as the page's `Order` type gives back the order it was built from, with status `completed` |
| Dashboard.MockOrdersReadBack | src/lib/supabase.ts:259-285 | the three mock orders are completed and total 2499, 1299 and 3598 cents |
| Dashboard.MockOrderStats | src/pages/Dashboard.tsx:32-53 | in mock mode the dashboard shows 3 orders, 7396 cents of revenue, and all three orders as recent, each completed |
| Shop.FirstIndex | src/pages/Shop.tsx:33 | the first position holding a value |
| Shop.Distinct | src/pages/Shop.tsx:33 | a `Set` round trip keeps exactly the values of the list, each once |
| Shop.DistinctFirstAppearanceOrder | src/pages/Shop.tsx:33 | the distinct values come out in the order in which they first appear |
| Shop.Categories | src/pages/Shop.tsx:33 | the buttons start with `all`, then list every product category once, in order of first appearance, and nothing else |
| Shop.WithCategory | src/pages/Shop.tsx:36 | the filter keeps exactly the products of the selected category |
| Shop.WithCategoryAppend | src/pages/Shop.tsx:36 | the filter keeps the relative order of products |
| Shop.FilteredProducts | src/pages/Shop.tsx:34-36 | `all` shows every product; any other category shows the filtered list |
| Shop.HandleCheckout | src/pages/Shop.tsx:38-44 | a line with a non-empty price id starts checkout with that price and name; any other line takes the demo path |
| Shop.LineAmount | src/pages/Shop.tsx:233 | a line of no units shows 0; a line of several units at a positive price shows more than one unit price; the amount is never negative for non-negative price and quantity |
| Shop.BuyButtonAsksForOneUnit | src/pages/Shop.tsx:250-257 | the buy button, labelled with the line amount, asks for a session holding exactly one unit of the line's price, whatever the quantity |
| About.NextIndex | src/pages/About.tsx:40-42 | from an index in `[0, n)` the next index stays in range: one more, or 0 after the last card |
| About.PrevIndex | src/pages/About.tsx:44-46 | from an index in `[0, n)` the previous index stays in range: one less, or the last card before the first |
| About.PrevUndoesNext | src/pages/About.tsx:41-45 | previous after next, and next after previous, return the original index |
| About.NextTimesShift | src/pages/About.tsx:41 | k ≤ n presses move forward k places and wrap past the end at most once |
| About.NextCycleReturns | src/pages/About.tsx:41 | n presses of the next button come back to the starting card |
| About.Toggled | src/pages/About.tsx:28-38 | the toggle adds the id if absent and removes it if present; every other id is unchanged |
| About.ToggleTwice | src/pages/About.tsx:28-38 | toggling the same card twice restores the set |
| About.AboutPage.GoToSlide | src/pages/About.tsx:211-214 | a dot button shows the card it stands for; the list and the flipped set are kept and the index stays valid |
| About.AboutPage.ToggleFlip | src/pages/About.tsx:28-38 | the copy-and-mutate update stores the toggled set and changes nothing else |
| About.SplitSpaces | src/pages/About.tsx:113 | `split(' ')` yields at least one part, and no part holds a space |
| About.FirstChars | src/pages/About.tsx:113 | at most one character per part; when no part is empty, exactly the first character of each part, in order |
| About.Initials | src/pages/About.tsx:113 | the initials are no longer than the name, and each is a non-space character of the name |
| About.InitialsAreWordStarts | src/pages/About.tsx:113 | the initials are the first character of each non-empty space-separated part, in order, which is exactly the characters that start a word |
| About.BadgeFor | src/pages/About.tsx:166-179 | a card shows the avatar when the URL is non-empty, and the initials otherwise |
| About.AboutPage.CofoundersFetched | src/pages/About.tsx:11-26 | the fetched rows replace the empty list, missing data giving an empty list; an error leaves the list empty |
| About.AboutPage.Render | src/pages/About.tsx:48-57 | the empty list renders the loading view, so the carousel and its buttons exist exactly when there is a card to show |
| About.AboutPage.NextSlide | src/pages/About.tsx:40-42 | reachable only from the carousel, where the list is non-empty; the index moves to the next one and stays valid |
| About.AboutPage.PrevSlide | src/pages/About.tsx:44-46 | reachable only from the carousel; the index moves to the previous one and stays valid |
| SongSection.Fmt | src/components/SongSection.tsx:13-14 | `0:00` for NaN; every label ends in a colon followed by two characters |
| SongSection.FmtStartsAtZero | src/components/SongSection.tsx:13-14 | the label reads `0:00` for NaN and for 0 |
| SongSection.SecondsFieldDigits | src/components/SongSection.tsx:14 | below 2^31 seconds the seconds field is the two digits of `s mod 60` |
| SongSection.FmtReadsBack | src/components/SongSection.tsx:13-14 | below 2^31 seconds the label ends in a colon and two digits below 60; reading it back gives minutes = s div 60 and minutes × 60 + seconds = s |
| SongSection.FmtWrapsPastInt32 | src/components/SongSection.tsx:14 | at 2^31 seconds the 32-bit conversion wraps and the seconds field reads `-8` |
| SongSection.BgMode | src/components/SongSection.tsx:47-50 | `bg-contain bg-top` exactly for "Adventure Awaits" and "Space Song", and `bg-cover` otherwise |
| JsNumber.JsRem | src/pages/About.tsx:41 | `%` keeps the sign of the dividend: a non-negative dividend gives the Euclidean remainder in [0, n), a negative one its negation in (-n, 0] |
| JsNumber.ToInt32 | src/components/SongSection.tsx:14 | the 32-bit conversion of x is in the signed 32-bit range, is congruent to x modulo 2^32, and equals x inside that range |
| JsNumber.ParseNatToString | src/components/SongSection.tsx:14 | the decimal text of a natural number reads back as the number |

## Left out

- CORS and the `OPTIONS` preflight answer of both edge functions are not modelled. They touch no table.
- The provider's signature scheme, session creation and amount computation are not modelled. They are library calls, so they appear only as inputs.
- The real database client is not modelled: its query engine, constraints, atomicity and concurrency. The table is a sequence of rows, and each handler's update is one step.
- StripeWebhook.FailureSettlesSession: a failure event without `metadata.session_id` is assumed to match no row. The client would send the key `undefined` in the query string, and that is not modelled.
- StripeWebhook.CompletionSettlesSession: a completion event without a session `id` is likewise assumed to match no row; the provider always sends one.
- StripeWebhook.CompletionSettlesSession: an undefined email is assumed to be dropped from the update body, so it leaves the column as it was.
- StripeWebhook.HandleWebhook: a store update that reports an error is assumed to have changed no row.
- CreateCheckout.CheckoutOutcome: a session whose `amount_total` is `null` is not modelled. The total is an integer.
- MockClient.MockData: every clock read in one call is one `now`. The songs' `lyrics` column is not modelled. The storage stubs are not modelled, because nothing in the core reads them.
- JsNumber.IntToString: numbers of 10^21 and above, which JavaScript writes in exponent notation, are written as plain digits.
- About.Initials: a character is modelled as one element of the string. The page's `n[0]` takes the first UTF-16 code unit, so for a word that starts with a character outside the Basic Multilingual Plane (an emoji, say) the page shows a lone surrogate where the model shows the whole character.
- Dashboard.OrderOf: a column that is missing or of another type is read as the empty text, no value, or 0. On the page, a missing `total_cents` makes the sum `NaN`, which `|| 0` turns into 0, so the revenue card shows $0.00 and that order's line shows $NaN; a text total would turn the sum into text instead. The model counts such a row as 0 and sums the others. The mock rows have every column with its schema type, so the mock statistics are not affected.
- SongSection.Fmt: only whole, non-negative seconds and NaN are modelled. Fractions, negative times and Infinity need floating point.
- The edge function `send-newsletter-email`, text-to-speech, the success page, the storefront's fetch and redirect (`src/lib/stripe.ts`, except its fixed success URL), the cart store, `formatPrice`/`toFixed` and the pages that only present are not part of this model.

## Findings

| source | as written | input that shows it | evidently intended | confidence | as-written member | corrected member |
|---|---|---|---|---|---|---|
| src/pages/Dashboard.tsx:39-47 | in mock mode the newsletter and product queries end in `select` or `eq`, which the mock client does not make awaitable, so their `data` is undefined and both counts are 0 | mock mode, any clock: subscribers 0 and products 0, while the mock tables hold 3 and 7 | the counts of the mock rows, 3 and 7 | high, not executed | Dashboard.MockCountsAsWritten | Dashboard.MockCountsCorrected |
| supabase/functions/stripe-webhook/index.ts:24 | `Stripe.createFetchHttpClient()` names `Stripe`, which neither edge function binds, so constructing the client throws and every webhook delivery is answered 400 | a correctly signed `checkout.session.completed` event: 400 "Stripe is not defined", and the row stays `pending` | a client built from the imported library, so that the signature check and the update run | medium, not executed | StripeWebhook.HandleWebhookAsWritten | StripeWebhook.HandleWebhook |
| supabase/functions/create-checkout/index.ts:23 | the same unbound `Stripe` throws before the session is created, so every checkout is answered 400 and no order is recorded | any request with a valid JSON body: 400 "Stripe is not defined" | a created session and a `pending` row | medium, not executed | CreateCheckout.CheckoutOutcomeAsWritten | CreateCheckout.CheckoutOutcome |
| src/lib/stripe.ts:31 | the storefront sends `origin + "/success"` as its success URL, which replaces the default carrying `session_id={CHECKOUT_SESSION_ID}`, so the success page never receives a session id to look the order up | any storefront purchase: the success URL is `origin/success` | a success URL ending in `session_id={CHECKOUT_SESSION_ID}` | high, not executed | CreateCheckout.StorefrontSuccessUrlLosesSessionId | CreateCheckout.StorefrontSuccessUrlCarriesSessionId |
