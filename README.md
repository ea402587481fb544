# Flash-sale reservation and settlement engine, in Dafny

This project models the core of a flash-sale shop. A buyer first places a
short-lived **hold** on some units of a product. While the hold is live it
protects that stock. The buyer then turns the hold into an **order**, and a
payment gateway later reports the payment outcome through a **webhook**. That
webhook settles the order exactly once per idempotency key. A console
command **sweeps** holds whose time has run out.

Once the database is abstracted away, each handler is one short, atomic,
sequential update of an in-memory store. The model has these parts:

- `Domain` (`domain.dfy`): the rows of the four tables (`Product`, `Hold`,
  `Order`, `PaymentEvent`), the closed status enumerations, the 120-second
  hold lifetime, and the outcome types. Requests that the controllers refuse
  become `Err` values of one `Error` enumeration.
- `Ledger` (`ledger.dfy`): availability, that is `stock_total - stock_sold`
  minus the `qty` of the product's holds that are `active` and not yet
  expired. It is a pure sum over the hold table. Lemmas say exactly which
  holds it counts and how it moves when one hold is appended or replaced.
- `Expiry` (`expiry.dfy`): which holds the sweep selects, what it does to
  each one, and the facts that the sweep is idempotent and keeps
  availability.
- `Events` (`events.dfy`): the payment-event log, its unique index on the
  idempotency key, and lookup by key.
- `FlashSale.Store` (`store.dfy`): a class holding the four tables as
  fields. It has one method per handler: `CreateHold`, `CreateOrder`,
  `Settle` (the webhook) and `SweepExpired` (the console command). Each
  method's contract gives the complete new state and answer for every
  branch of the handler.
- `Scenarios` (`scenarios.dfy`): properties that span several requests. Each
  method opens a fresh store over given tables, runs a sequence of calls,
  and states what they answer and leave behind.

Row identities are positions in their table. Rows are never removed or
reordered: new rows are appended, and holds and orders change only their
status in place. Time is an integer number of seconds passed to every
operation as `now`. The webhook's serialised request body is an opaque
`rawPayload` string.

The model does what the code does, including these behaviours that a reader
might not expect:

- A replayed idempotency key answers the status stored on the earlier
  payment event (`success`/`failure`), not the order's status.
- Settling with `failure` cancels an `active` or `used` hold whatever the
  order's status was. A paid order can be canceled. A later `success` with a
  fresh key then sells the quantity again (`Scenarios.PaidCanceledPaid`).
- Settling with `success` on an order not yet paid completes its hold
  whenever the hold is not yet `completed`. This includes a hold that an earlier `failure` canceled, so `canceled` is
  not terminal.
- Availability does not count `used` holds, and stock is only sold on
  payment. So the stock a hold protected is free again as soon as its order
  is placed (`Scenarios.HoldThenOrder`). Two buyers can then each order and
  pay the last unit (`Scenarios.OversellTrace`). The model therefore proves
  "availability is never negative" only for the hold just created
  (`FlashSale.Store.CreateHold`), not as an invariant of the store.
- The sweep answers nothing. The console command returns only its success
  code.

## Model

| member | source | states |
|---|---|---|
| `Ledger.Reserving` | app/Http/Controllers/HoldController.php:23-26 | a hold is among those summed iff it is of the same product, its status is `active` and `expires_at > now`; an expired hold still stored as `active` is left out; each matching row is kept as often as it occurs, so equal rows are all counted |
| `Ledger.ReservedQty` | app/Http/Controllers/HoldController.php:23-26 | the reserved quantity of a product never exceeds the total `qty` of the hold table and is zero when no hold is of that product, `active` and unexpired; that it is exactly the sum over those holds is `Ledger.ReservedIsSumOfReserving` |
| `Ledger.Available` | app/Http/Controllers/HoldController.php:28 | availability is `stock_total - stock_sold` less the reserved quantity: it never exceeds the unsold stock, is all of it when no hold of the product is `active` and unexpired, and may be negative; that the amount taken off is exactly the `qty` of the holds `Ledger.Reserving` selects is `Ledger.ReservedIsSumOfReserving` |
| `Ledger.ReservedIsSumOfReserving` | app/Http/Controllers/HoldController.php:23-28 | the reserved quantity used for availability is exactly the sum of `qty` over those holds |
| `Ledger.ReservedAppend` | app/Http/Controllers/HoldController.php:35-40 | appending a hold changes the reserved quantity of a product by that hold's own share and nothing else |
| `Ledger.ReservedUpdate` | app/Http/Controllers/OrderController.php:48-49 | replacing one hold (as a status change does) trades its old share for its new one; every other hold contributes what it did |
| `Expiry.Swept` | app/Console/Commands/ExpireHoldsCommand.php:33-36 | a swept hold is never due again at the same `now`, and from `now` on it reserves exactly what it did before, for every product; only a selected hold changes, and only its status, to `expired` |
| `Expiry.SweptAll` | app/Console/Commands/ExpireHoldsCommand.php:29-36 | the swept table has the same length and order, and each row is that row swept on its own |
| `Expiry.DueIndices` | app/Console/Commands/ExpireHoldsCommand.php:29-31 | the sweep selects exactly the holds whose status is `active` and whose `expires_at <= now`, each once, in table order |
| `Expiry.NothingDueAfterSweep` | app/Console/Commands/ExpireHoldsCommand.php:29-36 | after a sweep at `now` no hold is active with `expires_at <= now`, so a second sweep selects nothing |
| `Expiry.SweepIdempotent` | app/Console/Commands/ExpireHoldsCommand.php:29-36 | sweeping twice at the same time gives the same table as sweeping once |
| `Expiry.SweepKeepsReserved` | app/Console/Commands/ExpireHoldsCommand.php:29-31 | a sweep at `now` does not change any product's reserved quantity at `now` or any later time |
| `Expiry.SweepKeepsAvailable` | app/Http/Controllers/HoldController.php:23-28 | a sweep at `now` does not change any product's availability at `now` or later, because swept holds were already excluded |
| `Events.FindByKey` | app/Http/Controllers/PaymentController.php:26 | the lookup finds the first event recorded under the key, or says that no event has it |
| `Events.UniqueKeyFound` | database/migrations/2025_12_02_112629_create_payment_events_table.php:17 | under the unique index, any event carrying the key is the one the lookup finds |
| `Events.RecordFresh` | app/Http/Controllers/PaymentController.php:82-87 | recording an event under an unused key keeps keys unique, and the next lookup of that key finds the new event |
| `FlashSale.Store.CreateHold` | app/Http/Controllers/HoldController.php:11-46 | an unknown product, `qty < 1` or `available < qty` is refused with no change; otherwise exactly one `active` hold with the requested product and qty, `expires_at = now + 120`, is appended and its id and expiry are answered; products, orders and events are unchanged; the product's availability drops by `qty` and stays `>= 0`; other products' availability is unchanged |
| `FlashSale.Store.CreateOrder` | app/Http/Controllers/OrderController.php:13-55 | an unknown hold, a hold whose status is not `active`, a hold with `expires_at <= now` (even when still stored `active`) or a missing product is refused with no change; otherwise a `pending` order with the hold's product and qty, `hold_id`, and `total_price = price * qty` is appended, the hold becomes `used`, and nothing else changes; the product's availability rises by the hold's qty |
| `FlashSale.Store.Settle` | app/Http/Controllers/PaymentController.php:14-94 | an unknown order, a blank key (empty or only whitespace, as the `required` rule treats it) or a missing product is refused with no change; a key already recorded changes nothing and answers that event's stored status; otherwise the event is recorded under the key and the order's final status is answered; `success` on an unpaid order makes it `paid`, adds exactly `order.qty` to `stock_sold` and completes the hold if present and not completed; `success` on a paid order changes no order, hold or product; `failure` never touches stock, cancels the order and cancels the hold only if it is `active` or `used`; no other order, hold or product changes |
| `FlashSale.Store.SweepExpired` | app/Console/Commands/ExpireHoldsCommand.php:27-41 | the hold table becomes the swept table (every selected hold `expired`, every other hold unchanged, only `status` written); products, orders and events are unchanged; every product's availability at `now` is unchanged |
| `Scenarios.ReplayChangesNothing` | app/Http/Controllers/PaymentController.php:26-34 | a second webhook call with the same order and key, with any outcome, payload or time, changes nothing and answers the status the first applied call recorded; a refused first call is refused again |
| `Scenarios.SecondOrderOnHoldFails` | app/Http/Controllers/OrderController.php:24-49 | once an order has been made from a hold, a second order on it is refused as not active and changes nothing |
| `Scenarios.HoldOrderPay` | app/Http/Controllers/PaymentController.php:50-66 | hold `qty` units, order before the hold expires, pay with a fresh key: every step succeeds, `stock_sold` grows by exactly `qty`, the hold is `completed` and the order `paid` |
| `Scenarios.HoldThenOrder` | app/Http/Controllers/OrderController.php:47-49 | holding and then ordering leaves the product's availability where it was, because a `used` hold reserves nothing |
| `Scenarios.OversellTrace` | app/Http/Controllers/HoldController.php:23-32 | on a product with one unit, two hold/order pairs in the same second both succeed and both orders are paid, leaving `stock_sold = 2 > stock_total = 1` |
| `Scenarios.PayUnpaid` | app/Http/Controllers/PaymentController.php:50-59 | paying an order that is not yet paid under a fresh key answers `paid`, marks the order `paid`, adds exactly its qty to its product's `stock_sold`, records the event, and changes no other order or product |
| `Scenarios.PaidCanceledPaid` | app/Http/Controllers/PaymentController.php:50-72 | with three fresh keys, success, failure and success on one order answer `paid`, `canceled` and `paid`, and `stock_sold` grows by twice the order's qty |

## Left out

- Concurrency: database transactions, row locks (`lockForUpdate`) and their order are not modelled. Each operation is one atomic sequential step. Races between requests, such as two holds racing for the last unit, are not captured.
- Retries after a unique-key violation or a lock timeout: the code has none, and the model has none either.
- HTTP plumbing: request validation is modelled only by its outcome, an `Err` value with no state change. Status codes and JSON bodies are left out. When several fields are invalid at once the framework reports them all together; the model answers the first failed check, in the order the rules are listed.
- The wall clock and date arithmetic: `now` is a parameter in seconds and the hold lifetime is the constant 120. `updated_at` timestamps are not modelled.
- Serialisation of the request body into `raw_payload`: it is an opaque string parameter.
- The Eloquent model classes and the migration: they carry only fillable-column lists and the schema. The unique index on the idempotency key is the store invariant `Valid()`.
- The hold's initial status: the code passes `status = active` at creation, while the column default that the hold model's fillable list would fall back to is not part of this model. The model uses `active`.
- Money: `price` and `total_price` are natural numbers in minor units. Floating-point prices are not modelled.
- Foreign keys: the store does not require that an order's hold or product exists. A missing hold is tolerated by settlement, and a missing product is a refusal, as in the code.
- The sweep's console message.
- FlashSale.Store.Settle: idempotency keys are compared exactly as given. The framework's input-trimming middleware, which would make `" K"` and `"K"` the same key, is not part of this model; only a key that is blank after trimming is refused, as the `required` rule does.
