# Route guard, subscription webhook mapping and error cleaning of vibe-stack

This project models three small pieces of a Next.js + Convex + Stripe starter:

- **Route guard** (`middleware.ts`), module `RouteGuard` in `route_guard.dfy`. Three matchers sort a
  request path into logout, auth, protected or other. A first-match-wins chain then picks pass-through,
  a redirect to `/dashboard` or a redirect to `/login`. The session oracle `isAuthenticated()` is queried
  only after the logout check, and a failing query fails the request. Every response then has its
  `x-socket-ip` header set to the request IP, or deleted when there is no truthy IP. The chain is a
  function (`Route`, `Decide`). The header update works in place on a `Response` object
  (`SetIPHeader`), as the source mutates `response.headers`.
- **Subscription webhook mapping** (`lib/payments/stripe.ts`), module `Payments` in `payments.dfy`.
  `handleCheckoutCompleted` and `handleSubscriptionChange` become functions from the provider event,
  plus the provider's and the store's answers, to a `HandlerRun`. A run records the external calls
  issued (`Retrieve`, `UpdateSubscription` with its argument record) and whether the handler returned
  or threw. `getStripePrices` becomes a mapping over the listed prices.
- **Error cleaner** (`lib/utils.ts`), module `ErrorText` in `error_text.dfy`. `cleanConvexError` is built
  on a recursive `IndexOf` (JavaScript `indexOf` from a position), a slice (`substring`) and `Trim`.

`wrappers.dfy` holds `Option`, `Result` and JavaScript truthiness of an optional string (`Truthy`).

Inputs that stand for foreign code:

- the session oracle's answer is a `SessionQuery`;
- the request IP is an `Option<string>`;
- the headers the framework puts on a freshly built response are a map;
- the subscription Stripe returns is a `Result<Subscription, string>`;
- the listed prices are a `Result<seq<Price>, string>`;
- the store's answer to the mutation is a `StoreReply`.

Subscription plan names and statuses are passed through as strings, unmapped, as the handlers do.

## Model

| member | source | states |
|---|---|---|
| `RouteGuard.IsProtectedRoute` | middleware.ts:10 | definition of the protected matcher: the path starts with `/dashboard` or `/settings` |
| `RouteGuard.IsAuthRoute` | middleware.ts:11 | definition of the auth matcher: the path is exactly `/login` or `/signup` |
| `RouteGuard.IsLogoutRoute` | middleware.ts:12 | definition of the logout matcher: the path is exactly `/logout` |
| `Wrappers.Truthy` | middleware.ts:19 | definition of JavaScript truthiness of an optional string, used by `if (ip)` here and by `!userId` and `\|\|` in lib/payments/stripe.ts:18, 57 and 63-64: present and non-empty |
| `RouteGuard.Response.constructor` | middleware.ts:16-24 | the response object whose header map `setIPHeader` changes in place; it starts with the given outcome and the framework's headers |
| `RouteGuard.LogoutIsNeitherAuthNorProtected` | middleware.ts:10-12 | the logout path matches neither the auth nor the protected matcher |
| `RouteGuard.Route` | middleware.ts:29-49 | logout passes through; the result is a redirect to `/dashboard` exactly when the path is an auth route and the session is authenticated; it is a redirect to `/login` exactly when the path is protected and the session is not authenticated; it passes through exactly when neither holds; no other redirect target occurs |
| `RouteGuard.Decide` | middleware.ts:27-49 | a logout path passes through whatever the session oracle answers; on any other path the request fails exactly when the session query fails, with that query's reason; with an answered query the outcome is `Route` of that answer |
| `RouteGuard.LogoutIgnoresSession` | middleware.ts:29-34 | two different session answers give a logout path the same pass-through, so the query is never consulted for it |
| `RouteGuard.NoRedirectLoop` | middleware.ts:37-46 | following either redirect with the same session state yields pass-through |
| `RouteGuard.WithIPHeader` | middleware.ts:14-25 | `x-socket-ip` equals the IP when the IP is present and non-empty and is absent otherwise; every other header keeps its presence and value |
| `RouteGuard.WithIPHeaderIdempotent` | middleware.ts:18-23 | applying the header update twice equals applying it once |
| `RouteGuard.SetIPHeader` | middleware.ts:14-25 | updates the given response's headers in place as `WithIPHeader` says and returns the same object |
| `RouteGuard.Middleware` | middleware.ts:27-50 | fails exactly when `Decide` fails, with the same error; otherwise returns a new response whose outcome is the one `Decide` picks and whose headers are the framework's headers with the IP header applied, on every branch |
| `Payments.Rethrow` | lib/payments/stripe.ts:43-46 | definition of the `catch (error) { throw error }` around the mutation: the handler returns normally exactly when the store accepted the write; a store failure is re-thrown with its own reason |
| `Payments.FirstPrice` | lib/payments/stripe.ts:30 | definition of `items.data[0]?.price`: the first line item's price is present exactly when there is a line item, and is that item's price |
| `Payments.ProductField` | lib/payments/stripe.ts:31 | definition of `(plan?.product as Stripe.Product).id`: reading `.id` through the product cast is undefined for an unexpanded id string, and is the id of an expanded or deleted product |
| `Payments.NameField` | lib/payments/stripe.ts:32 | definition of `(plan?.product as Stripe.Product).name`: reading `.name` through the product cast gives a name only for an expanded product |
| `Payments.OrElse` | lib/payments/stripe.ts:63-64 | definition of the JavaScript `\|\|` default: `x \|\| fallback` yields `x` when it is present and non-empty, the fallback otherwise |
| `Payments.MetadataUserId` | lib/payments/stripe.ts:55 | definition of `metadata.userId`: the metadata user id is present exactly when the `userId` key is, and is its value |
| `Payments.HandleCheckoutCompleted` | lib/payments/stripe.ts:11-47 | without a truthy `client_reference_id` no call is made and the handler returns; otherwise the first call is the lookup of the session's subscription; a failed lookup throws the provider error after that lookup only; a subscription without line items throws before any mutation; a mutation, if issued, is the second and last call |
| `Payments.CheckoutSuccessArgs` | lib/payments/stripe.ts:30-46 | on the success path exactly one mutation is issued, with the session's user id, customer and subscription id and the retrieved status; with no defaults applied, product id and plan name are both undefined when the first item's product is an unexpanded id string, are the product's id and name when it is expanded, and are the id with an undefined name when it is deleted; a store failure is re-thrown
| `Payments.CheckoutWithoutUserIsIgnored` | lib/payments/stripe.ts:16-21 | without a truthy user id the run does not depend on the lookup's or the store's answer and issues no mutation |
| `Payments.CheckoutReadsOnlyFirstItem` | lib/payments/stripe.ts:30-32 | two retrieved subscriptions with the same first item and status give the same run, whatever their later items |
| `Payments.HandleSubscriptionChange` | lib/payments/stripe.ts:49-79 | without a truthy `metadata.userId` no call is made and the handler returns; otherwise exactly one call, a mutation, is made, and a store failure is re-thrown |
| `Payments.ChangeSuccessArgs` | lib/payments/stripe.ts:62-74 | on the success path exactly one mutation is issued, with the metadata user id and the subscription's customer, id and status; the product id is the first item's expanded or deleted product id when that is non-empty and `""` otherwise; the plan name is the first item's expanded product name when that is non-empty and `"Pro Plan"` otherwise, so a missing item, an unexpanded product or an empty value falls back to the defaults
| `Payments.ChangeReadsOnlyFirstItem` | lib/payments/stripe.ts:62-64 | two events that differ only in the line items after the first give the same run |
| `Payments.ChangeCallsIndependentOfStore` | lib/payments/stripe.ts:49-74 | the same change event yields the same calls, with the same mutation arguments, whatever the store answers |
| `Payments.CheckoutCallsIndependentOfStore` | lib/payments/stripe.ts:11-42 | the same checkout event and lookup answer yield the same calls, with the same mutation arguments, whatever the store answers |
| `Payments.ToPriceView` | lib/payments/stripe.ts:89-95 | definition of the per-price object literal inside the map: id, unit amount and currency are copied; `productId` is the product string when the product is an id and the product's id otherwise; interval and trial days are absent when `recurring` is, and copied from it otherwise |
| `Payments.PriceViews` | lib/payments/stripe.ts:88-96 | the mapped list has the same length as the price list and holds each price's view at the same position |
| `Payments.GetStripePrices` | lib/payments/stripe.ts:81-97 | a provider error is propagated unchanged; otherwise the result is the price list mapped in order |
| `Payments.MonthlyPriceExample` | lib/payments/stripe.ts:88-96 | a monthly price of 1200 in `usd` maps to unit amount 1200, currency `usd` and interval `month` |
| `ErrorText.IndexOf` | lib/utils.ts:13 | the result is -1 exactly when the pattern does not occur at or after the start position; otherwise it is the first such occurrence |
| `ErrorText.IndexOfFirst` | lib/utils.ts:13 | the first occurrence at or after the start position is what `IndexOf` returns |
| `ErrorText.IsSpace` | lib/utils.ts:29 | definition of the whitespace `trim` removes: space, tab, line feed, carriage return, vertical tab and form feed |
| `ErrorText.TrimStart` | lib/utils.ts:29 | the result is a suffix of the input, everything dropped is whitespace, and it does not start with whitespace |
| `ErrorText.TrimEnd` | lib/utils.ts:29 | the result is a prefix of the input, everything dropped is whitespace, and it does not end with whitespace |
| `ErrorText.Trim` | lib/utils.ts:29 | the result is a slice of the input with only whitespace outside it, and it neither starts nor ends with whitespace |
| `ErrorText.CutEnd` | lib/utils.ts:17-27 | the cut ends at the end of the text, at a newline, or at a `" at "`, and no newline and no `" at "` starts between the start and the cut end |
| `ErrorText.CutEndUnique` | lib/utils.ts:20-27 | any position with that characterization is the cut end, so the cut ends at the earlier of the first newline and the first `" at "` |
| `ErrorText.CleanConvexError` | lib/utils.ts:12-30 | the result is no longer than the input, and when the marker `"Uncaught Error: "` does not occur the input comes back unchanged |
| `ErrorText.CleanWithMarker` | lib/utils.ts:13-29 | when the marker first occurs at `i`, the result is the trimmed text from `i` plus 16 up to the first newline or `" at "` from there on, or up to the end of the text |
| `ErrorText.CutIsClean` | lib/utils.ts:17-27 | the cut text contains no newline and no `" at "` |
| `ErrorText.TrimKeepsClean` | lib/utils.ts:29 | trimming a text without newline and `" at "` leaves a text without them |
| `ErrorText.CleanWithMarkerShape` | lib/utils.ts:16-29 | when the marker occurs, the result contains no newline and no `" at "`, has no leading or trailing whitespace, and is at most the input length minus 16 |

## Left out

- The body of the `updateSubscription` mutation (upsert by user id, `createdAt`/`updatedAt`) is not part of this model. Its implementation is not among the modelled files, so the handlers record only whether the mutation is requested and with which arguments, and the idempotence of the upsert is not stated.
- Stripe client construction and the remote calls `subscriptions.retrieve` and `prices.list` are foreign network calls. Their answers are inputs, and the expand and filter options sent with them are not modelled.
- `async`/`await` and `console.error` logging are left out. The Next.js response objects are reduced to an outcome plus a header map given by the framework.
- `createRouteMatcher` is modelled as plain prefix and equality tests. Trailing slashes, case and query strings of the path-to-regexp semantics are not modelled.
- The `config.matcher` exclusions (middleware.ts:52-54) are framework routing configuration applied before this code runs.
- `cn` (lib/utils.ts:5-7) wraps third-party class-name libraries.
- ErrorText.Trim: removes only the ASCII whitespace space, tab, line feed, vertical tab, form feed and carriage return, not JavaScript's full Unicode whitespace set.
- ErrorText.IndexOf: an empty pattern searched from beyond the end returns -1 here, where JavaScript returns the length; the cleaner only searches for non-empty patterns.
- Payments.HandleCheckoutCompleted: the crash on a missing first line item is modelled as the error `MissingLineItem`, not as a JavaScript TypeError. `customer` and `subscription` are taken as strings, as the source casts them; a null value is not modelled.
- Payments.ToPriceView: a `null` trial period and a missing `recurring` both become `None`; the model does not distinguish JavaScript `null` from `undefined`.
- Determinism of both handlers holds because they are functions; `ChangeCallsIndependentOfStore` and `CheckoutCallsIndependentOfStore` add that the store's answer does not influence the requests.
- Plan and status are not mapped to the schema's enums, because the handlers pass them through unmapped.
