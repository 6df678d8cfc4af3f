# Haugalandsved checkout, modelled in Dafny

A model of the server-side core of the Haugalandsved firewood storefront (a SvelteKit
application backed by PocketBase and Stripe) with proofs of what it promises:

- **Checkout** (`src/routes/checkout/+page.server.ts`, module `Checkout`): the form
  action that validates the posted quantity and delivery method, checks the inventory
  record, picks the campaign price, computes the total and builds the Stripe
  checkout-session request (line items in øre, address collection, string metadata).
  It is pure: the store's answers, the clock and Stripe's reply are parameters.
  The main theorem, `Checkout.LineItemsChargeTotal`, says the line items charge exactly
  `100 * total`.
- **Payment confirmation** (`src/routes/api/checkout/success/+server.ts`, module
  `Confirmation`): a `Backend` class that holds the store's `quantityAvailable` and its
  `orders`. Its method `Confirm` runs one invocation of the handler. Stripe's session,
  the store's failures, the admin credentials and the mail transport's failure are one
  `Services` value. The method returns the HTTP outcome and the ordered list of outside
  calls it started.
- **Static-asset caching** (`src/hooks.server.ts`, module `Hooks`): the path predicate
  and the in-place overwrite of the `Cache-Control` header on a `Response` object.
- Support modules: `Wrappers` (Option, Result), `Http` (redirects and errors), and
  `Decimal` (`String(n)` and `Number(s)` on integers, with the round-trip proof that
  carries the checkout metadata to the confirmed order).

Behaviour of the code that the model keeps:

- The inventory update is attempted once, and a failure is logged.
- Only the `session_id` query parameter is read.
- Missing admin credentials are only logged. The order stays created and the stock is unchanged.
- The order's `user` is the metadata's `userId`, which is `""` for guests.
- The not-paid `error(400, …)` is thrown inside the `try`. The handler's own `catch` turns it into a 500.
- The inventory admission `catch` rethrows any error whose `status` is 400. That includes a
  PocketBase error with status 400, which leaves the action as a foreign error
  (`Response.Escaped(400)`) instead of the 503.

Times (`now`, `endDate`, `created`) are integers. Money is integer kroner, and øre in the line items.

## Model

| member | source | states |
|---|---|---|
| `Checkout.ValidateForm` | src/routes/checkout/+page.server.ts:50-56 | accepts exactly an integer quantity in 1..9 and a known delivery method; the quantity guard runs first; each rejection is a 400 with its own reason |
| `Checkout.ParseDeliveryMethod` | src/routes/checkout/+page.server.ts:29-30 | a form value is accepted iff it is one of "pickup", "standard", "express" |
| `Checkout.DeliveryMethodRoundTrip` | src/routes/checkout/+page.server.ts:54 | a value is accepted as method m iff it is m's name, both directions |
| `Checkout.CeilThird` | src/routes/checkout/+page.server.ts:38 | `Math.ceil(q/3)` is the least r with `3r >= q` |
| `Checkout.CalculateTotal` | src/routes/checkout/+page.server.ts:32-40 | `calculateTotal`: wood cost, shipping (0, ceil(q/3)*1000 or q*300) and their sum; its properties are stated by `LineItemsChargeTotal` and `PricingExamples` |
| `Checkout.PricingExamples` | src/routes/checkout/+page.server.ts:32-40 | q=3 express at 1190 costs 3570+1000=4570; q=5 standard at 1490 costs 7450+1500=8950; two more cases |
| `Checkout.FirstRunning` | src/routes/checkout/+page.server.ts:20 | the `find` stops at the first campaign with `endDate >= now`, all earlier ones have ended; none found iff every campaign has ended |
| `Checkout.ActiveCampaignPrice` | src/routes/checkout/+page.server.ts:12-27 | a failed lookup, or a list with no running campaign, gives the default pair (1490, 1490) and never an error |
| `Checkout.NewestRunningCampaignWins` | src/routes/checkout/+page.server.ts:14-22 | on the list the `isActive`/`-created` query returns, the price comes from an active running campaign created no earlier than any other running one |
| `Checkout.InventoryCheck` | src/routes/checkout/+page.server.ts:59-68 | checkout proceeds iff the record is in stock with at least q available; a short record is a 400; a lookup failure never proceeds and is a 503 unless its status is 400 |
| `Checkout.LineItems` | src/routes/checkout/+page.server.ts:88-120 | the goods item and the conditional shipping item; stated by `LineItemsLayout` and `LineItemsChargeTotal` |
| `Checkout.SessionMetadata` | src/routes/checkout/+page.server.ts:124-129 | the four metadata strings; `PreparedSessionFacts` and `Confirmation.MetadataRoundTrip` prove they read back as the server-computed values |
| `Checkout.PrepareCheckout` | src/routes/checkout/+page.server.ts:45-130 | the guards, the admission check, the price and the session request, in source order; stated by `RejectedBeforeServices` and `PreparedSessionFacts` |
| `Checkout.CheckoutAction` | src/routes/checkout/+page.server.ts:43-143 | the whole action with Stripe's reply; stated by `CheckoutRedirects` and `RejectedBeforeServices` |
| `Checkout.LineItemsChargeTotal` | src/routes/checkout/+page.server.ts:88-120 | the sum of `unit_amount * quantity` over the line items is exactly `100 * total` |
| `Checkout.LineItemsLayout` | src/routes/checkout/+page.server.ts:88-119 | the goods item is (price*100, q); a second item exists iff the method is not pickup, (100000, ceil(q/3)) for express and (30000, q) for standard |
| `Checkout.RejectedBeforeServices` | src/routes/checkout/+page.server.ts:50-58 | a rejected form yields the guard's 400 whatever the inventory, campaigns, clock and Stripe would answer |
| `Checkout.PreparedSessionFacts` | src/routes/checkout/+page.server.ts:60-129 | a built session passed admission, charges the server-computed total, its metadata parses back to that total, the quantity and the method, and it asks for a shipping address iff the method is not pickup |
| `Checkout.CheckoutRedirects` | src/routes/checkout/+page.server.ts:132-142 | the action redirects (303, to Stripe's URL) iff the session was prepared and Stripe returned a non-empty URL |
| `Decimal.ShowInt` | src/routes/checkout/+page.server.ts:126-128 | `String(n)` of an integer; stated by `ParseShowInt` and `ShowIntInjective` |
| `Decimal.ParseInt` | src/routes/api/checkout/success/+server.ts:25-27 | `Number(s)` on an optional minus sign and digits, `None` for NaN; stated by `ParseShowInt` |
| `Decimal.ParseDigits` | src/routes/api/checkout/success/+server.ts:25-27 | a string parses iff it is a non-empty run of decimal digits |
| `Decimal.ParseShowInt` | src/routes/checkout/+page.server.ts:124-129 | `Number(String(n)) == n` for every integer written into metadata |
| `Decimal.ShowIntInjective` | src/routes/checkout/+page.server.ts:126-128 | different integers give different metadata strings |
| `Confirmation.OrderFieldsFrom` | src/routes/api/checkout/success/+server.ts:17-29 | the order record created always has status "Betalt" |
| `Confirmation.Remaining` | src/routes/api/checkout/success/+server.ts:40 | `Math.max(0, available - q)` is never negative, is at least the difference and is either 0 or the difference; NaN iff the quantity is NaN |
| `Confirmation.InventoryCalls` | src/routes/api/checkout/success/+server.ts:32-52 | the calls of the inventory block up to the first that throws; stated by `InventoryWrittenOnlyThroughUpdate` |
| `Confirmation.InventoryAfter` | src/routes/api/checkout/success/+server.ts:36-46 | the stock after the inventory block; stated by `InventoryNeverNegative` and `InventoryWrittenOnlyThroughUpdate` |
| `Confirmation.MailCalls` | src/routes/api/checkout/success/+server.ts:55-82 | the mails started, given the address, a failing mail-module import and a failing customer mail; stated by `MailOrdering` |
| `Confirmation.Caught` | src/routes/api/checkout/success/+server.ts:88-92 | the outer `catch`; stated by `CaughtOutcomes` |
| `Confirmation.Backend.Confirm` | src/routes/api/checkout/success/+server.ts:6-93 | missing id: 400, no calls, nothing changes; no paid session or a failed create: 500 and nothing changes; paid: exactly one order appended, the stock set by the inventory block, the calls in source order (no mail when the mail module fails to load), a 303 to `/profile/orders`; a non-negative stock stays non-negative |
| `Confirmation.Backend.UpdateStock` | src/routes/api/checkout/success/+server.ts:32-52 | the stock afterwards and the calls made follow the credentials and the failing step |
| `Confirmation.Backend.SendMails` | src/routes/api/checkout/success/+server.ts:55-82 | the mails started follow the address, the mail-module import failure and the customer-mail failure |
| `Confirmation.InventoryNeverNegative` | src/routes/api/checkout/success/+server.ts:40-46 | from a non-negative stock the inventory block never leaves a negative one |
| `Confirmation.InventoryWrittenOnlyThroughUpdate` | src/routes/api/checkout/success/+server.ts:36-52 | without credentials nothing is called and the stock is unchanged; any failing step leaves it unchanged; a changed stock is exactly the value of the update call |
| `Confirmation.MailOrdering` | src/routes/api/checkout/success/+server.ts:55-82 | mail is sent iff a customer address exists and the mail module loads; the customer's confirmation comes before the admin notice, which is sent only if the first did not fail |
| `Confirmation.CaughtOutcomes` | src/routes/api/checkout/success/+server.ts:84-92 | the 303 passes the `catch` unchanged, the not-paid 400 becomes a 500, and every outcome is a 303 or that 500 |
| `Confirmation.MetadataRoundTrip` | src/routes/api/checkout/success/+server.ts:17-40 | the metadata checkout writes becomes an order with the same user, quantity, method and total, and the stock drops by that quantity, clamped at 0 |
| `Hooks.IsStaticAsset` | src/hooks.server.ts:7-12 | the path test; stated by `StaticAssetPaths` and `StaticAssetExamples` |
| `Hooks.WithCacheRule` | src/hooks.server.ts:7-13 | a matching path gets the immutable Cache-Control value; any other path keeps its headers exactly; no other header changes; lower-case names stay lower-case |
| `Hooks.CacheRuleIdempotent` | src/hooks.server.ts:13 | applying the rule twice gives the headers of applying it once |
| `Hooks.StaticAssetPaths` | src/hooks.server.ts:7-12 | every path under `/images/` and every path ending in .png, .jpg, .jpeg, .webp or .ico matches |
| `Hooks.StaticAssetExamples` | src/hooks.server.ts:8-12 | `/logo.PNG` does not match (case-sensitive), nor does a suffix in mid-path |
| `Hooks.Response.ApplyCacheRule` | src/hooks.server.ts:13 | the header map becomes the rule applied to the old map, by replacement |
| `Hooks.Handle` | src/hooks.server.ts:3-17 | the same response object comes back, its headers are the rule applied to what `resolve` produced, and they are untouched for any other path |

## Left out

- Stripe (`sessions.create`, `sessions.retrieve`) is not part of this model. Its results are parameters (`StripeReply`, `Services.retrieved`).
- The PocketBase client, the admin login and the store's query filter and sort are not part of this model. Their answers are parameters. The `isActive`/`-created` guarantee is the requirement of `NewestRunningCampaignWins`.
- `src/lib/server/mail.ts` is not part of this model: HTML templating, locale formatting and SMTP I/O. The mail calls are recorded, not executed.
- `src/routes/api/checkout/create-intent/+server.ts`, `src/routes/+page.server.ts`, the order list page, the sitemap and robots.txt are left out. They hold no decision logic, or code this route does not use.
- Concurrency: the lost update between two confirmations that race on the inventory record is not modelled. Each invocation runs alone.
- Date parsing and JavaScript float arithmetic are left out. Times and prices are integers.
- Log output (`console.*`) is left out.
- Error messages are reduced to `Http.Reason` values.
- Header-name case folding in `Headers` is not modelled. `Hooks.Response` requires its header map to be in the form a `Headers` object stores, with names already lower case, and keeps it so.
- Decimal.ParseInt: parses only an optional minus sign followed by digits. JavaScript's `Number()` also accepts whitespace, `+`, exponents and fractions, and maps `""` to 0. The round trip on the strings `String()` writes is unaffected.
- Confirmation.Backend.Confirm: when the metadata quantity is `NaN`, the source writes `NaN` to the store, which JSON sends as `null`. The model leaves the stock unchanged in that case. It also takes Stripe and store errors to carry no status 303.
- Checkout.CheckoutAction: a thrown Stripe error is always the generic 500. A foreign error carrying a non-zero `status` field would be rethrown as-is, which is not modelled.
