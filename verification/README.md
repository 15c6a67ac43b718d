# Order-and-entitlement ledger of the premium-report bot

This project models a Telegram bot that sells a premium AI report, together with its small
Flask payment server. The server keeps one JSON document. It holds a list of **orders** (id,
Telegram user, plan, status `pending`/`paid`/`failed`, creation time, currency) and a map from
Telegram user id to an **entitlement record** (premium flag, plan, granting order, expiry time).

The model treats that document as an immutable value, `Ledger.Db`. Each state-changing route
is a pure function from one `Db` to the next, plus a reply:

- `CreateOrder` handles the checkout request. It checks the shared secret and that the price
  converts to a number, then appends a pending order. Only then does it ask the payment provider for a checkout page, or link to
  the demo payment page when Stripe is not configured.
- `SimulateWebhook` handles the simulated payment notification.
- `StripeWebhook` handles what happens after the Stripe notification has been verified.

The queries `GetOrder` and `UserStatus` return values and no `Db`, so they cannot change the
store. Non-determinism is passed in as parameters:

- the clock reading `now`;
- the UUID hex string the order id is cut from (type `OrderIds.UuidHex`);
- the Stripe checkout call's outcome (`SessionResult`);
- the outcome of Stripe signature checking and payload parsing (`Option<Event>`).

The bot side (`Bot`) models three things. The first is the 4000-character chunking of the
report, shown to round-trip and to be the only split of its shape. The second is the /redeem
decision. The third is the /buy decision. A few lemmas connect the bot to the server.

The server has no guard against settling an order twice and no read-time expiry check. A
repeated paid simulation grants the entitlement again and moves `expires_at` forward. A failed
simulation can turn a paid order to failed. `user_status` returns the stored record without
looking at the clock. `RedeliveredPaymentRefreshesExpiry` and `FailureOverwritesPayment` prove
this behaviour.

Further details of the code that the model keeps:

- A missing `telegram_id` becomes the string `"None"`, because the code calls Python's `str`
  on it. This holds both in the checkout request and in Stripe metadata.
- A `price` that Python's `float` rejects makes the checkout route fail with a server error
  before the store is read, so no order is appended.
- Order ids are not checked for collisions. If a new id matches an older one, the older order
  shadows it in every lookup (`CreateKeepsEarlierLookups`).

Files: `optional.dfy` (the `Option` type), `order_ids.dfy` (order id format), `ledger.dfy`
(server routes and their invariants), `bot.dfy` (bot helpers and bot-server lemmas).

## Model

| member | source | states |
|---|---|---|
| `OrderIds.NewOrderId` | server.py:43 | A new id is `ord_` followed by the first 12 lower-case hex digits of the UUID: 16 characters in all. |
| `OrderIds.Suffix` | server.py:43 | Stripping `ord_` from a well-formed id leaves 12 hex digits; putting the prefix back restores the id. |
| `OrderIds.SuffixOfNewOrderId` | server.py:43 | Stripping `ord_` from a fresh id gives back exactly the 12 UUID digits it was cut from. |
| `OrderIds.NewOrderIdInjective` | server.py:43 | Two UUIDs give the same order id if and only if their first 12 hex digits agree. |
| `Ledger.FirstMatch` | server.py:79-81 | The scan finds the first index whose order has the requested id. It finds nothing only when no order has that id. |
| `Ledger.FirstMatchComplete` | server.py:79-81 | Whenever an index is the first with an id, the scan returns exactly that index. |
| `Ledger.CreateOrder` | server.py:34-70 | A wrong or missing secret gives the 403 reply and leaves the store as it was. With the right secret, a price `float` rejects gives the server-error reply, again with the store unchanged. Otherwise exactly one order is appended: pending, created at `now`, with the caller's id, plan (default `premium`) and currency (default `usd`). Earlier orders and all entitlements are unchanged. The reply carries the new id. Without Stripe its URL is the pay-stub link. With Stripe, the reply carries the session's URL, or the provider's error message; in the error case the new order stays stored. |
| `Ledger.GetOrder` | server.py:76-82 | Returns the first order with the id; returns not-found exactly when no order has it. |
| `Ledger.LookupOrder` | server.py:77-82 | The route's front-to-back loop returns the same answer as `GetOrder`, and any order it returns has the requested id. |
| `Ledger.UserStatus` | server.py:84-89 | Returns the stored record verbatim when the user has one, else the empty record. There is no expiry filtering. |
| `Ledger.Settle` | server.py:97-102 | Settling order `i` changes that order's status and nothing else in the order list. With a grantee, it writes the order's plan, the order's id and `now` + 30 days under that user; otherwise entitlements are untouched. |
| `Ledger.SimulateWebhook` | server.py:91-105 | Not-found happens exactly when the id is missing or matches no order, and then the store is unchanged. Otherwise the first matching order becomes paid or failed according to the flag. Only a paid event writes an entitlement, under the order's own user. |
| `Ledger.StripeWebhook` | server.py:107-134 | Stripe not configured gives the 400 reply; a failed verification gives the other 400 reply. Every verified event is acknowledged. The store changes only for a completed checkout whose metadata order id matches an order. In that case the first such order becomes paid, and the metadata's user (or "None") gets the entitlement. |
| `Ledger.StepEvolves` | server.py:33-134 | Every state-changing request keeps every existing order's id, owner, plan, time and currency. No status goes back to pending, and no entitlement is removed. |
| `Ledger.RunEvolves` | server.py:33-134 | The same holds over any sequence of requests. |
| `Ledger.StepPreservesConsistent` | server.py:33-134 | If every entitlement is premium and backed by an existing order of the same plan, that stays true after any request. |
| `Ledger.RunPreservesConsistent` | server.py:33-134 | The backing invariant holds over any sequence of requests. |
| `Ledger.CreatedOrderIsFound` | server.py:42-82 | After a successful creation whose id is new, reading that id returns the new pending order. |
| `Ledger.CreateKeepsEarlierLookups` | server.py:42-82 | Creation does not change what any other id reads back. A colliding id still reads back the older order. |
| `Ledger.RedeliveredPaymentRefreshesExpiry` | server.py:97-102 | A second paid simulation for the same order re-grants: the expiry becomes 30 days after the second delivery, so the store changes whenever the two times differ. |
| `Ledger.FailureOverwritesPayment` | server.py:97-103 | A failed simulation after a paid one makes the order failed and leaves the premium entitlement in place. |
| `Bot.Chunks` | bot.py:74 | Each chunk is non-empty and at most 4000 characters; every chunk but the last has exactly 4000. The count is the report length divided by 4000, rounded up. An empty report gives no chunks. |
| `Bot.ChunksRoundTrip` | bot.py:74 | Concatenating the chunks gives back the report exactly. |
| `Bot.ChunksUnique` | bot.py:74 | Any split with that concatenation and those size rules is the chunking itself. |
| `Bot.FullChunksLength` | bot.py:74 | Pieces that are all full have a total length of 4000 times their number. |
| `Bot.SplitReport` | bot.py:74 | The loop over `range(0, len(report), 4000)` builds exactly the chunks, and they concatenate to the report. |
| `Bot.RedeemDecision` | bot.py:66-77 | No premium gives the no-premium reply. Premium without a non-empty saved text asks for text. Only premium with saved text generates a report, on that text. |
| `Bot.RedeemReplies` | bot.py:64-77 | Without premium, one no-premium message is sent. Without text, the premium notice and the request for text are sent. Otherwise the premium notice is followed by exactly the chunking of the generated report: pieces of at most 4000 characters that concatenate to it. |
| `Bot.BuyDecision` | bot.py:54-59 | The checkout button is offered exactly when the status is 200 and a non-empty `checkout_url` is present. Otherwise the reply is the error prefix followed by the server's answer. |
| `Bot.BuyReplies` | bot.py:54-59 | A checkout button appears exactly when checkout is offered, and it opens that URL. It is followed by the /redeem hint. On error, the single message is the error text. |
| `Bot.BuyOffersPayStub` | bot.py:52-57 | With matching secrets and no Stripe, /buy offers the pay-stub link of the order it just created, and its button opens that link. That order is pending, belongs to the user, and is for the premium plan in usd. |
| `Bot.BuyWithWrongSecretFails` | bot.py:52-59 | With a secret the server does not share, /buy reports an error and the server stores nothing. |
| `Bot.RedeemSeesEveryStoredEntitlement` | bot.py:64-77 | Against a consistent store, the premium check fails exactly for users with no stored record. It does so whatever the time, because no expiry is applied. |
| `Bot.RedeemAfterSimulatedPayment` | bot.py:64-67 | After a paid simulation for an order, the order's owner passes the premium check. |

## Left out

- JSON file persistence (`read_db`, `write_db`, creating the file at start-up) is not modelled. The store is an in-memory value. The unused `promos` and `audit` keys are dropped.
- Flask routing, HTTP plumbing, and the text of `index` and `pay_stub` are not modelled. Route results are datatypes; only the bot-side `StatusCode` maps them to 200/403/500.
- The Stripe library calls (`checkout.Session.create`, `Webhook.construct_event`, `json.loads`) are foreign code. Their outcomes are parameters: `SessionResult` for the first, and `Option<Event>` for verification plus parsing. When Stripe is configured but no webhook secret is set, the payload is parsed without a signature check. This too is folded into that parameter.
- Payloads that parse but do not have the typed event shape are outside the model. Examples are a missing `data.object`, which raises in the source, and a non-object JSON value.
- CreateOrder: does not model a checkout request whose JSON body is a non-empty array. There `data.get` raises before the secret check, and Flask answers 500 with the store unchanged. Request bodies are modelled as objects only.
- SimulateWebhook: does not model a body that is a non-empty array, which likewise raises at `payload.get` and leaves the store unchanged. A non-numeric `price` on the checkout route is modelled, as `InvalidPrice`.
- A JSON `null` given explicitly for `plan` or `currency` is outside the model. Both fields are strings or absent.
- The `paid` flag of the simulated webhook is modelled as its Python truthiness, a boolean.
- The price amount and `int(price*100)` are omitted, because both are floating point. Only whether `float` accepts the price is kept. A price that `float` accepts but `int(price*100)` rejects (infinity, NaN) fails inside the Stripe `try`. It is covered by the `SessionError` outcome.
- The clock (`time.time()`) and `uuid4` are parameters.
- Concurrency is not modelled. The server's unguarded read-modify-write of the whole file can lose updates. The model is sequential and claims nothing about atomicity.
- An idempotency guard and read-time expiry are not modelled, because the code has neither. The lemmas above show what happens without them.
- AI text generation (`ai_generate`, `generate_mini_analysis`, `generate_full_report`) calls external services. `RedeemReplies` takes the generator as a function parameter.
- Telegram wiring, keyboards, `start`, `echo_handler` and `callback_query` are not modelled. Only the chunking and the reply choices are.
