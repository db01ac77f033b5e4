# A verified model of the shop's services

The shop is a set of services: orders and checkout, payments, stock and catalogue, and accounts. This
project models the parts where money, goods and access depend on several steps being right together, and
proves what they guarantee. `dafny verify dfyconfig.toml` checks everything.

**Orders.** `Orders.dfy` holds the order entity: pricing at creation and the status transitions.
`OrderProtocol.dfy` is the order service as a transition system: creating, paying, shipping, fulfilling,
expiring, refunding and canceling orders run as concurrent handlers, each with a program counter and local
copies, and any other handler may take steps between two calls to the repository or the stock service.
Calls may fail at any point. The stores behave as their ports promise, with the columns each guarded save
writes. Every order has one payment id, and releases succeed. `OrderMoney.dfy` is what every run keeps: payments,
charges and idempotency keys. `OrderInvariants.dfy` and `OrderTheorems.dfy` are about stock.
`OrderHandlers.dfy` shows that the handlers as written, with their order objects and compensating releases,
follow the system, and `OrderAlone.dfy` what each achieves when nobody interferes. `OrderDelivery.dfy` is the
promise of payment: a delivery of the right amount whose own calls succeed ends with the payment on the order,
however the others interleave.

The guarded saves test the status of a row only, so a delivery that saw an order canceled may store it paid
again after it was paid by another delivery, and canceled once more. Two results say exactly when that hurts:

- A cancel of a paid order is *final* exactly when no such delivery is on its way (`OrderFinality.dfy`, for every
  run).
- It leaves all *stock* sound exactly when the order's stock is not at risk: no such delivery with a good payment
  is on its way while the order's stock is committed or a shipment of it is in flight (`OrderExactness.dfy`). The
  stock theorems are about *guarded* runs, which cancel paid orders only then. Deliveries, refunds, cancels,
  expiry and shipping are otherwise unlimited.

`OrderLimits.dfy` is a run in which a single unguarded refund breaks both, and `OrderDiscipline.dfy` gives two
ways of working that need no guard: no refunds and operator cancels, or one delivery of a payment at a time. The
operator's cancel loads and saves without a guard of its own and counts as one step.

**Checkout.** `CheckoutSession.dfy` is the session entity, edited in place, and its relation to the order it
becomes. `CheckoutClaim.dfy` is a second transition system: concurrent completions of one session, readers
of it, and the expiry worker, where every call may fail. It shows that one order survives, and that the
session may nevertheless stop naming it: the write-back of an expired copy is not guarded.

**Payments.** `Refunds.dfy` is the cancel of a captured payment, with int64 wrap-around and a gateway that may
reply anything.

**Stock.** `Inventory.dfy` resolves and merges requested lines, reserves them all or not at all, and closes
reservations once, however the store calls of different requests interleave.

**Accounts.** `Lockout.dfy` is the failed-login lockout and its numeric bound, `Sessions.dfy` refresh-token
rotation, `Permissions.dfy` the permission evaluator, and `Accounts.dfy` the management hierarchy with the
five handlers that administer accounts.

**Shared pieces.** `Outbox.dfy` is the drain loop, `Fingerprint.dfy` the record that recognises a repeated
request, `Ranking.dfy` the recommendation ranking, both over `Ordering.dfy`; `Sku.dfy` prints and parses
SKUs; `Text.dfy` has the string helpers.

Where the code and its comments differ, the model follows the code. Two results are about such differences.
`CompleteCheckoutSessionIfOpen` is described as making one completion win, but a later write-back can erase
it (`CheckoutClaim.NamedForeverIffNoStaleExpiry` says exactly when). A SKU text of five
segments whose edition is empty parses although printing never produces it (`Sku.ParseThenBuild`).

## Model

| member | source | states |
|---|---|---|
| `OrderTheorems.NoReservationLeaks` | order/pkg/service/service.go:132-415 | Whenever no handler is in flight, in any guarded run, a reservation is active exactly when a pending order, or a paid one not yet committed, names it, and no two orders name the same one: every failure, duplicate and lost race has released what it reserved and nothing else. |
| `OrderTheorems.OrdersHoldTheirStock` | order/pkg/service/service.go:239-415 | In every reachable state of a guarded run, however expiry, any number of deliveries, shipping, refunds and operator cancels interleave, a pending order names an active reservation of its own, a paid one never a released one, and one in transit or fulfilled a committed one. |
| `OrderTheorems.GoodsLeaveOnce` | order/pkg/service/service.go:368-413 | Two committed reservations of one order are the same reservation, even when a ship stops after its commit and is retried. |
| `OrderExactness.StockGuardIsExact` | order/pkg/service/payment_consumer.go:146-219 | From any state reached under the guard, a cancel of a paid order, by a refund or an operator, leaves every order's stock sound in all guarded continuations exactly when that order's stock is not at risk: no good payment is about to give it new stock while its own is committed or a shipment of it is in flight. |
| `OrderExactness.RiskStrikes` | order/pkg/infra/pg/repository.go:1049-1090 | From a state with the order's stock at risk, the cancel has a continuation without any further cancel of a paid order that ends with two committed reservations of the order. |
| `OrderFinality.CanceledPaymentIsFinal` | order/pkg/service/service.go:244-250 | In a run that cancels a paid order only when no revival of it is in flight, once an order is stored canceled with its payment its row never changes again and no stock is ever reserved for it, whatever replays arrive. |
| `OrderFinality.FinalIffNoRevival` | order/pkg/service/service.go:239-359 | With no guard at all, in every reachable state an order canceled with its payment is left alone by every continuation, row and stock, exactly when no delivery that saw it canceled before is on its way to store it paid. |
| `OrderFinality.GuardIsExact` | order/pkg/service/payment_consumer.go:146-219 | From any reachable state a cancel of a paid order, by a refund or an operator, is final exactly when no delivery that saw it canceled before is in flight for it. |
| `OrderMoney.FreeRunKeeps` | order/pkg/service/service.go:239-447 | Every run, with no guard at all, keeps: rows name stock made for them and carry only the order's own payment for its total, bills stay valid for the stored lines, keys name their orders, and each handler's copies match what is stored. |
| `OrderDiscipline.DisciplineSuffices` | order/pkg/service/payment_consumer.go:110-219 | A run in which nobody refunds or cancels by hand, or in which an order's payment is delivered once at a time, never cancels a paid order during a revival and is guarded, so the results on finality and on stock hold of it. |
| `OrderMoney.PaidInFull` | order/pkg/domain/order.go:88-150 | In every reachable state of any run, guarded or not, an order's total is its goods minus discount plus delivery and never less than delivery; an order stored paid, in transit or fulfilled carries a payment, and whoever carries one was paid by its one payment with exactly that total. |
| `OrderMoney.ChargeNeverChanges` | order/pkg/domain/order.go:195-208 | From any reachable state to any later one, guarded or not, an order keeps its lines, its bill and, once it has one, its payment, through expiry, refund and reinstatement. |
| `OrderMoney.OneOrderPerKey` | order/pkg/service/service.go:132-149 | However creates race, in any run, two orders created under one idempotency key are one order, and the key's record names it. |
| `OrderMoney.HandlersFinish` | order/pkg/service/service.go:239-359 | Every call brings its handler strictly closer to its end, whatever the others do: the reconciliation happens once. |
| `OrderMoney.HandlersNeverStuck` | order/pkg/service/service.go:239-359 | In every reachable state of any run the next call of every handler in flight is possible, failing or succeeding with any fresh id. |
| `OrderTheorems.RunKeeps` | order/pkg/service/payment_consumer.go:73-219 | Every state of every guarded run satisfies the invariant over rows, reservations, handlers and pairs of handlers. |
| `OrderMoney.StepContinues` | order/pkg/service/service.go:361-366 | One step of any handler keeps every stored order's bill, lines and payment. |
| `OrderInvariants.Preserve` | order/pkg/service/service.go:132-447 | Any effect that is legal for its handler keeps the whole stock invariant: the frame argument behind every interleaving. |
| `OrderInvariants.StepIsLegal` | order/pkg/service/service.go:132-447 | In a state satisfying the stock invariant every guarded step is legal; in particular the branch of the reconciliation that would forget a reservation is never reached while one is held. |
| `OrderInvariants.ReinstatementIsLegal` | order/pkg/service/service.go:635-653 | Reserving again for a canceled order leaves the handler either holding exactly the new reservation with a paid copy, or about to release it. |
| `OrderMoney.BillStaysOk` | order/pkg/domain/order.go:88-132 | A bill stays valid for the stored lines through every save, also the one that writes a whole row. |
| `OrderLimits.GuardIsNeeded` | order/pkg/infra/pg/repository.go:1049-1090 | A concrete run without failures in which every step but one refund is guarded: the refund lands while the order's shipment and a second delivery of its payment are under way, and the order is then paid again and leaves with one reservation committed and another, the one it names, still active. |
| `OrderLimits.GuardAllowsRevivals` | order/pkg/service/payment_consumer.go:146-219 | Earlier in the same run, before any shipment, the guard lets the order be canceled although a delivery is reviving it: the guard on stock is weaker than the condition for finality. |
| `OrderAlone.DeliveryAlone` | order/pkg/service/service.go:239-359 | Without interference or failures a delivery pays exactly a pending order, or one canceled without this payment, for exactly its total: the first keeps its stock, the second gets stock reserved anew and a new deadline; a refused revival gives its reservation back; nothing else changes. |
| `OrderAlone.CreateAlone` | order/pkg/service/service.go:150-213 | Left alone, a create stores exactly the order its draft asks for, holding one fresh active reservation and its key's record, or leaves only a released reservation. |
| `OrderAlone.ShipmentAlone` | order/pkg/service/service.go:368-415 | Left alone, a shipment sends a paid order whose stock is at hand or was committed by an earlier attempt, and its stock ends committed; with released stock or from any other status nothing changes. |
| `OrderAlone.CancelAlone` | order/pkg/service/payment_consumer.go:73-219 | Left alone, expiry cancels exactly a pending order past its deadline and a refund exactly a paid one with the fully refunded payment; stock still on hold is given back, stock already committed or released stays; otherwise nothing changes. |
| `OrderAlone.FulfilmentAlone` | order/pkg/service/service.go:438-447 | Left alone, a fulfilment fulfils exactly an order in transit and changes nothing else. |
| `OrderHandlers.MarkOrderPaid` | order/pkg/service/service.go:239-359 | Against arbitrary steps of others before each call, the handler follows its path of the transition system to its end, and on every path each reservation it made has been stored or released. When none of its own calls fails, a nonblank payment of exactly the order's total is on the order at the end, and the answer is the order, or a conflict when a save of its own was lost to another handler. Undisturbed it succeeds exactly for a payment already applied or payable, returns the row it leaves, and states the rows, the stock and the refusal otherwise. At most one save takes effect, and none when it fails. |
| `OrderHandlers.PersistPending` | order/pkg/service/service.go:269-297 | A pending order paid in memory is looked at again before the save: stored as it is, reinstated first when it was canceled meanwhile, or left when another delivery has paid it; nothing is owed at the end. |
| `OrderHandlers.ReinstateAndPersist` | order/pkg/service/service.go:255-268 | A canceled order is reserved for, reinstated, paid and saved; undisturbed it is stored paid on the fresh stock, or the stock is given back and the refusal says why. |
| `OrderDelivery.DeliveryLands` | order/pkg/service/service.go:239-359 | In every run, guarded or not, a delivery of a stored order's payment for exactly its total, none of whose own calls fails, has put the payment on the order after at most seven of those calls, whatever expiry, refunds, shipments and other deliveries do in between; until then it is still under way. |
| `OrderDelivery.OwnCall` | order/pkg/service/service.go:269-358 | A successful call of such a delivery puts the payment on the order or leads to its next call, never to giving up. |
| `OrderDelivery.OthersCall` | order/pkg/infra/pg/repository.go:1049-1090 | No step of another handler takes such a delivery off its way, or a payment off its order. |
| `OrderHandlers.PersistPaid` | order/pkg/service/service.go:303-358 | The guarded save and its single reconciliation: from a paid copy, holding the reinstated reservation or none, the handler ends owing nothing; without failing calls a good payment ends on the order; undisturbed, the copy is stored and returned. |
| `OrderHandlers.TryOnceMore` | order/pkg/service/service.go:328-352 | The last reinstatement either stores the payment or releases its reservation: nothing is owed at the end, and only a failed call, a wrong payment or a lost race makes it give up. |
| `OrderHandlers.ReinstateCanceledOrder` | order/pkg/service/service.go:635-653 | Reserves, then makes the local copy pending under the new reservation and deadline; on any refusal the reservation is released before returning, and a canceled order is refused only when a call fails. |
| `OrderHandlers.CreateOrder` | order/pkg/service/service.go:132-213 | Succeeds only with a stored order which, under a key, is the one recorded for that key and the same request fingerprint; on every path the reservation it made has been stored with the order or released, and a failure saves nothing. When no call of its own fails, an acceptable request succeeds unless its key was taken by a different request. Undisturbed, a new request succeeds exactly when customer, bill and address are acceptable, and stores exactly that pending order on fresh stock; a known key is answered without any change. |
| `OrderHandlers.AnswerFromKey` | order/pkg/service/service.go:195-205 | After a save that did not happen the stock is given back, and a key recorded meanwhile is answered with its order exactly for the same request, unless looking it up fails. |
| `OrderHandlers.Replay` | order/pkg/service/service.go:461-474 | Answers with the key's stored order exactly when the fingerprint is the recorded one, and with a conflict otherwise. |
| `OrderHandlers.ShipOrder` | order/pkg/service/service.go:368-415 | Success means that shipper and tracking were acceptable and the order is in transit, also when a concurrent ship won the race, and that its reservation is committed while no cancel was unguarded; a failure saves nothing. Undisturbed it succeeds exactly for a paid order with stock not given up, an acceptable shipper and tracking; then the order is in transit, its stock committed, and nothing else has changed, and on refusal nothing has. |
| `OrderHandlers.CancelExpiredPendingOrder` | order/pkg/service/payment_consumer.go:73-101 | It cancels this order or none, says which, and then the order's own stock is no longer on hold; undisturbed it cancels exactly an expired pending order. |
| `OrderHandlers.CancelOrderForRefund` | order/pkg/service/payment_consumer.go:146-219 | The same for a fully refunded payment of this order, guarded or not: undisturbed it cancels exactly a paid order with this payment. |
| `OrderHandlers.CancelOrder` | order/pkg/service/service.go:417-436 | Cancels exactly a stored pending or paid order, guarded or not, and then its own stock is no longer on hold; otherwise it cancels nothing. |
| `OrderHandlers.Shop.Call` | order/pkg/service/service.go:239-415 | One call of a handler: other handlers take any steps first, then exactly this handler's step happens; what every run keeps is kept, the stock invariant as long as every step was guarded; what the handler owes, has canceled, saved and failed at follows from the step, a good delivery stays on its way, and a call left alone succeeds on the state as it was. |
| `OrderHandlers.Shop.SavePaid` | order/pkg/service/service.go:361-366 | The guarded save stores the payment exactly when the row still has the status it started from, and otherwise leaves the handler to reconcile or give back. |
| `Orders.NewOrder` | order/pkg/domain/order.go:88-132 | Accepts exactly nonblank identifiers with lines and amounts that have a valid bill, and returns the pending order with that bill and the normalized lines. |
| `Orders.BillForIsValid` | order/pkg/domain/order.go:88-132 | A bill exists exactly for nonempty, sellable lines with 0 <= discount <= subtotal and non-negative delivery, is the only valid one, and never totals less than delivery. |
| `Orders.WhatAnOrderCosts` | order/pkg/domain/order.go:88-132 | From the request as it was sent: an order is accepted exactly when it has lines, each with a nonblank identifier, a positive quantity and no negative price, 0 <= discount <= the sum of the lines and delivery is not negative; it costs that sum less the discount plus delivery. |
| `Orders.SubtotalAdds` | order/pkg/domain/order.go:97-115 | The subtotal is quantity times price for one line, and adds up over any grouping of lines. |
| `Orders.AcceptedTracking` | order/pkg/domain/shipment.go:39-72 | Tracking is accepted exactly for a listed carrier in any letter case, a nonblank number of at most 64 and, for another carrier, a nonblank note of at most 120 characters; number and note are kept, trimmed, and a listed carrier's note is dropped. |
| `Orders.Order.MarkPaid` | order/pkg/domain/order.go:134-150 | Pays a pending order with a nonblank payment of exactly the total; a refusal names its reason and changes nothing. |
| `Orders.Order.Ship` | order/pkg/domain/order.go:152-181 | Only a paid order with a shipper and valid tracking ships, and then stores them, with a note only for an unlisted carrier; a refusal names its reason and changes nothing. |
| `Orders.NormalTrackingShips` | order/pkg/domain/shipment.go:39-72 | Normalized tracking is never refused by the entity, so validating before the irreversible commit is enough, and it is stored as it is beside the trimmed shipper. |
| `Orders.Order.Cancel` | order/pkg/domain/order.go:183-190 | Only a pending or paid order cancels; a refusal changes nothing. |
| `Orders.Order.Reinstate` | order/pkg/domain/order.go:195-208 | Only a canceled order becomes pending again, with the new reservation and a new payment deadline, keeping its bill. |
| `Orders.Order.Fulfill` | order/pkg/domain/order.go:210-217 | Only an order in transit is fulfilled; a refusal changes nothing. |
| `CheckoutClaim.OneOrderSurvives` | order/pkg/service/checkout.go:124-194 | When every concurrent completion has finished, a pending order is the claimed one or one whose compensating cancel failed; stock still on hold is a pending order's or one whose release failed; and the session names the claimed order or has been overwritten as expired. |
| `CheckoutClaim.OneCallerWins` | order/pkg/service/checkout.go:171-194 | At most one caller is ever given an order, and it is the claimed one. |
| `CheckoutClaim.NamedForeverIffNoStaleExpiry` | order/pkg/service/checkout.go:196-206 | A completed session goes on naming its order in all continuations exactly when nobody is about to write back a copy read before the claim and judged expired. |
| `CheckoutClaim.ClaimInTimeIsNamedForever` | order/pkg/service/checkout.go:171-206 | With a clock that never runs backwards, a claim that lands no later than the session's expiry is named for ever, whatever the expiry worker cancels meanwhile. |
| `CheckoutClaim.StaleExpiryExample` | order/pkg/service/checkout.go:37-47 | A concrete timed run in which a reader's write-back of a copy found expired, a save without a guard, erases a session completed after its expiry while the order stays pending. |
| `CheckoutClaim.RunKeeps` | order/pkg/service/checkout.go:124-206 | Every run keeps: at most one claim, every pending order holding its stock and answered for by its handler, every other active reservation in a handler's hands. |
| `CheckoutClaim.NobodyIsStuck` | order/pkg/service/checkout.go:124-206 | Until it finishes, a handler's next call is always possible. |
| `CheckoutClaim.HandlersFinish` | order/pkg/service/checkout.go:124-206 | Every call brings a handler strictly closer to its end, at most eight calls in all. |
| `CheckoutSession.RunKeepsPricing` | order/pkg/domain/checkout_session.go:86-261 | Over every run of operations, rejected ones included, the subtotal is the sum of the lines, 0 <= discount <= subtotal, a discount implies a coupon, and the total is subtotal minus discount plus the opening fee, or without the fee when empty. |
| `CheckoutSession.EveryEditKeepsPricing` | order/pkg/domain/checkout_session.go:234-261 | Each single operation keeps that pricing. |
| `CheckoutSession.NeverDearerThanQuoted` | order/pkg/service/checkout.go:139-170 | However a fresh session is edited, with prices and coupons unchanged its completion creates an acceptable order that never costs more than the session showed. It costs exactly that if and only if the last accepted edit of basket or coupon applied the coupon, or there is no coupon, or the coupon is worth nothing on these goods. |
| `CheckoutSession.DiscountFollowsTheEdits` | order/pkg/domain/checkout_session.go:86-251 | After any run the discount shown is the coupon's while the last accepted edit of basket or coupon applied it, and zero otherwise. |
| `CheckoutSession.DroppedDiscountExample` | order/pkg/domain/checkout_session.go:107-131 | A concrete run in which an edit after the coupon makes the session show 1000 while its order costs 500. |
| `CheckoutSession.RejectionChangesNothing` | order/pkg/domain/checkout_session.go:75-84 | A rejected operation changes nothing except that it may note the expiry. |
| `CheckoutSession.ClosedIsForever` | order/pkg/domain/checkout_session.go:75-84 | A completed or expired session never changes again, whatever is tried. |
| `CheckoutSession.WithoutCounts` | order/pkg/domain/checkout_session.go:143-148 | Removal loses exactly the matching lines, however often they occur. |
| `CheckoutSession.WithoutKeepsOrder` | order/pkg/domain/checkout_session.go:143-148 | The kept lines stand at increasing old positions. |
| `CheckoutSession.UpsertTouchesOneLine` | order/pkg/domain/checkout_session.go:119-130 | Upserting changes only the first line for the same variant, or adds one line when there is none, and upserting the same item again changes nothing. |
| `CheckoutSession.Session.Compact` | order/pkg/domain/checkout_session.go:143-149 | Compacting in place, reading and writing one buffer, equals the stable removal of the old lines. |
| `CheckoutSession.Session.RemoveItem` | order/pkg/domain/checkout_session.go:133-175 | The session after a removal by SKU or by SKU id, with its error, is the specified one; a blank key is refused. |
| `CheckoutSession.Session.UpsertItem` | order/pkg/domain/checkout_session.go:107-131 | The first line for the same variant is replaced in place, or the line is appended, and totals are recomputed without discount. |
| `CheckoutSession.Session.SetItems` | order/pkg/domain/checkout_session.go:86-105 | All lines are replaced by the normalized ones, or none is when one is unsellable. |
| `CheckoutSession.Session.ApplyCoupon` | order/pkg/domain/checkout_session.go:188-202 | Stores the normalized code and the discount for a fraction strictly between 0 and 1, the fraction of the goods rounded down, or changes nothing. |
| `CheckoutSession.CouponTakesItsFraction` | order/pkg/domain/checkout_session.go:188-251 | After an accepted coupon the discount is the largest whole amount within its fraction of the sum over the lines, and only code, discount and totals have changed. |
| `CheckoutSession.RedeemedIsTheFraction` | order/pkg/service/checkout.go:139-170 | So is the discount that completion redeems, on the lines then in the session. |
| `CheckoutSession.DiscountOf` | order/pkg/domain/checkout_session.go:245-249 | A discount is the largest whole amount within the fraction of the subtotal. |
| `CheckoutSession.WhatIsAccepted` | order/pkg/domain/checkout_session.go:75-232 | An operation is accepted exactly on an open session whose time is not up, with lines that name something in a positive quantity at no negative price, nonblank keys, codes and order ids, a fraction strictly between 0 and 1, and something to complete. |
| `CheckoutSession.ItemsAreKept` | order/pkg/domain/checkout_session.go:86-105 | Setting the items keeps every line with its quantity and price, its identifiers trimmed and the SKU in upper case, keeps the coupon code and drops the discount. |
| `CheckoutSession.CompletingAndClearing` | order/pkg/domain/checkout_session.go:204-232 | Completing stores the trimmed order id, closes the session and changes nothing else; clearing the coupon leaves no code and no discount on the same items. |
| `CheckoutSession.RemovalComparesItsField` | order/pkg/domain/checkout_session.go:133-175 | Removal by SKU loses exactly the lines with that SKU, removal by id exactly those with that id. |
| `CheckoutSession.PutReplacesItsVariant` | order/pkg/domain/checkout_session.go:177-186 | The line replaced is the first with the same id where both have one, and the first with the same SKU where one has none. |
| `CheckoutSession.Session.ClearCoupon` | order/pkg/domain/checkout_session.go:204-213 | Drops the coupon and its discount. |
| `CheckoutSession.Session.Complete` | order/pkg/domain/checkout_session.go:215-232 | Only a nonempty open session completes, with a nonblank order id. |
| `CheckoutSession.Session.Recalculate` | order/pkg/domain/checkout_session.go:238-261 | The loop's totals equal the specified repricing of the items. |
| `CheckoutSession.NewCheckoutSession` | order/pkg/domain/checkout_session.go:50-73 | Refuses exactly blank identifiers and a negative fee; a new session is open and correctly priced. |
| `Refunds.RefundsAddUp` | payment/pkg/service/service.go:468-583 | Over any serialized run of cancels with arbitrary gateway replies the announced amounts add up to what is recorded and never exceed the capture; each event announces the balance left after it; zero is announced at most once, last, and exactly when the payment becomes canceled. |
| `Refunds.GatewayWins` | payment/pkg/service/service.go:533-562 | For every reply, wrapped differences included, the recorded amount lies in [1, remaining]; a reported balance in [0, remaining - 1] becomes exactly the new balance. |
| `Refunds.AcceptedIsRecorded` | payment/pkg/service/service.go:489-526 | Once the gateway has accepted, the cancel is recorded and announced and cannot fail; without an event nothing changed. |
| `Refunds.RetryIsSilent` | payment/pkg/service/service.go:477-481 | A retry with the key of the last keyed cancel calls no gateway, changes nothing and announces nothing, even after unkeyed cancels. |
| `Refunds.KeyIsLatest` | payment/pkg/service/service.go:514-518 | The stored key is that of the last recorded cancel that carried one. |
| `Refunds.ReconcileCanceledAmount` | payment/pkg/service/service.go:533-562 | The reassigned local amount ends in [1, remaining] and equals the specified reconciliation. |
| `Refunds.Ledger.CancelPayment` | payment/pkg/service/service.go:468-526 | Payment, event, error and the amount asked of the gateway are the specified ones (`Refunds.AskedIsRefunded` says which); a captured payment stays one. |
| `Refunds.AskedIsRefunded` | payment/pkg/service/service.go:482-513 | A cancel asks the gateway for exactly the requested amount, or for all that is left when none is named, and records and announces exactly that when the gateway adds nothing or there is none; a gateway's refusal changes nothing, and an amount not left to refund is refused with its reason before anybody is asked. |
| `Refunds.GatewayIsBelieved` | payment/pkg/service/service.go:497-513 | A gateway that accepts and names a balance below ours, or else an amount no larger than what is left, is believed to the unit. |
| `Refunds.AcceptedIsSigned` | payment/pkg/service/service.go:510-520 | An accepted cancel stores and announces its reason and actor, and stores its key, each only when the request names it; amount captured and method stay. |
| `Refunds.Payment.ApplyCancel` | payment/pkg/domain/payment.go:138-192 | Refuses exactly what validation refuses, changing nothing; otherwise adds the amount and becomes canceled when nothing is left. |
| `Refunds.Wrap64` | payment/pkg/service/service.go:546-549 | int64 wrap-around: in range, and the identity on values in range. |
| `Inventory.InventoryStore.ReserveOrder` | product/pkg/service/inventory_service.go:153-175 | A request succeeds exactly when it is well-formed and every variant's requested total is in stock, whichever identifiers its lines used; then each variant's reserved count grows by exactly that total and the merged lines are stored, and otherwise nothing changes and the refusal says why. |
| `Inventory.ResolveReservationItems` | product/pkg/service/inventory_service.go:214-247 | Succeeds exactly when all lines are good, and then returns distinct variants in first-seen order, each under the SKU on record, whose quantities are the input's totals; a failure is that of the first bad line. |
| `Inventory.AnIdNamesItsVariant` | product/pkg/service/inventory_service.go:59-66 | A nonblank id names the variant on record under it, whatever SKU comes with it, and an unknown one names nothing. |
| `Inventory.AnySpellingNamesItsVariant` | product/pkg/service/inventory_service.go:67-76 | Without an id, a SKU names the variant on record under its upper case, between any blanks; blanks alone and an unknown SKU name nothing. |
| `Inventory.OneVariantOneLine` | product/pkg/service/inventory_service.go:210-247 | Lines that all mean one variant, however each names it, merge into one line of their total. |
| `Inventory.IdAndSkuMerge` | product/pkg/service/inventory_service.go:210-213 | A line by id and a line by any spelling of the SKU, in either order, are both good and reserve a single line with the sum, under the variant's own id and SKU. |
| `Inventory.MergeAdds` | product/pkg/service/inventory_service.go:229-231 | A further line for a listed variant keeps totals and order when added to its line. |
| `Inventory.MergeAppends` | product/pkg/service/inventory_service.go:232-235 | A line for a new variant keeps totals and order when appended. |
| `Inventory.MergedInStock` | product/pkg/infra/memory/inventory_store.go:187-195 | Checking merged lines one by one is checking each variant's total. |
| `Inventory.InventoryStore.CreateReservation` | product/pkg/infra/memory/inventory_store.go:176-216 | For any lines: all are covered line by line and reserved, or nothing changes. With merged lines reserved counts stay equal to what active reservations hold. |
| `Inventory.EveryRunBalances` | product/pkg/service/inventory_service.go:78-208 | However the single store calls of upserts, adjustments, reservations and closes of any number of requests interleave, every variant keeps 0 <= reserved <= quantity with reserved the sum over active reservations. |
| `Inventory.ReservationsCloseOnce` | product/pkg/infra/memory/inventory_store.go:218-270 | Over every such run a closed reservation never changes again and no reservation's lines do. |
| `Inventory.TotalsDecide` | product/pkg/infra/memory/inventory_store.go:187-215 | Reserving lines keeps all counts in range exactly when each variant's total fits its available stock. |
| `Inventory.RepeatedLinesOversell` | product/pkg/infra/memory/inventory_store.go:187-195 | Two lines of one variant that each fit can together reserve more than there is: the store's check is line by line and relies on merged lines. |
| `Inventory.InventoryStore.FinalizeReservation` | product/pkg/infra/memory/inventory_store.go:218-270 | A reservation closes once, a second close only reports how; balances are kept, and no line can run short half way. |
| `Inventory.CloseUndoesReserve` | product/pkg/service/inventory_service.go:177-208 | Releasing undoes a reservation exactly; committing takes exactly its units out of stock. |
| `Inventory.ReserveBalances` | product/pkg/infra/memory/inventory_store.go:197-215 | Reserving covered lines keeps 0 <= reserved <= quantity with reserved equal to the sum over active reservations. |
| `Inventory.CloseBalances` | product/pkg/infra/memory/inventory_store.go:238-269 | So does closing an active reservation either way. |
| `Inventory.ClosingLine` | product/pkg/infra/memory/inventory_store.go:241-259 | At every point of a close the next line is covered by what is reserved and in stock, so the partial-failure branches cannot be taken. |
| `Inventory.InventoryStore.EnsureItem` | product/pkg/infra/memory/inventory_store.go:87-104 | Opens an empty row only where there is none. |
| `Inventory.InventoryStore.SetQuantity` | product/pkg/infra/memory/inventory_store.go:106-125 | Sets a quantity no smaller than what is reserved, or changes nothing. |
| `Inventory.InventoryStore.AdjustQuantity` | product/pkg/infra/memory/inventory_store.go:127-147 | Adds a delta that keeps the quantity at or above what is reserved, or changes nothing. |
| `Inventory.InventoryStore.UpsertItem` | product/pkg/service/inventory_service.go:78-107 | Sets a resolved variant's stock, opening its row if needed; each refusal has its reason and changes nothing. |
| `Inventory.InventoryStore.AdjustStock` | product/pkg/service/inventory_service.go:122-151 | Adds to a resolved variant's stock; nothing can be taken where there is no row. |
| `Lockout.GuessesAreBounded` | auth/pkg/service/service.go:168-203 | From a fresh non-exempt account, while no attempt succeeds, passwords judged wrong within T seconds of the first attempt number at most 5 * (T / 900 + 1); a right password tried during a lock is not a success. |
| `Lockout.BoundIsTight` | auth/pkg/service/service.go:168-203 | A guesser who waits out each lock has exactly that many judged, so the bound cannot be lowered. |
| `Lockout.GuessingPace` | auth/pkg/service/service.go:177-203 | While no attempt succeeds, judged guesses form full rounds of five, each followed by a whole lock, and one round in progress. |
| `Lockout.LockedExactlyAtFive` | auth/pkg/domain/user.go:52-92 | Over any run from a fresh account the lock is set exactly when the count is five. |
| `Lockout.ExemptNeverLocked` | auth/pkg/domain/user.go:67-86 | However many wrong passwords are tried, an admin's or owner's next right one works. |
| `Lockout.WhoIsExempt` | auth/pkg/domain/user.go:67-78 | An account is exempt exactly when some held token grants *, or it is a manager, or of the legacy admin type, and its tokens grant admin.* or both user.read and user.permissions.update. |
| `Lockout.FiveWrongPasswordsLock` | auth/pkg/service/service.go:168-203 | Five wrong passwords, each judged, lock an active account that is not exempt: an attempt less than 900 seconds after the lock is turned away whatever its password, and from then on the right one logs in and clears the count, and a wrong one starts a new count. |
| `Lockout.CustomersAreLocked` | auth/pkg/service/service.go:168-203 | In particular for an active customer without permissions. |
| `Lockout.Service.Login` | auth/pkg/service/service.go:155-217 | The stored user after an attempt and the reply are the specified ones. |
| `Lockout.Service.Lock` | auth/pkg/domain/user.go:80-86 | An exempt account is left alone. |
| `Lockout.Service.Unlock` | auth/pkg/domain/user.go:89-92 | Clears the lock and the count together. |
| `Sessions.OneRefreshPerToken` | auth/pkg/service/service.go:233-283 | In every interleaving of lookups, rotations, logouts and evictions a refresh token buys at most one refresh, a spent one is not live, and a login has at most one live token. |
| `Sessions.TheDeadStayDead` | auth/pkg/infra/memory/session_store.go:103-126 | A token rotated, revoked or evicted never becomes live again, and a login with no live token stays ended, whatever is in flight. |
| `Sessions.LogoutEnds` | auth/pkg/service/service.go:220-225 | Logging out the live token ends its login at once. |
| `Sessions.LiveTokenIsRefreshed` | auth/pkg/infra/memory/session_store.go:103-126 | In every run, a rotation whose presented token is still live and in time buys the new token for its user, under the same login, good for exactly a full period; the old one is gone, all others stay as they were, and otherwise nothing is bought. |
| `Sessions.LookupFindsTheLive` | auth/pkg/infra/memory/session_store.go:73-90 | A refresh goes on exactly with a live token whose time is not up, and one whose time is up is deleted next. |
| `Sessions.LoginLasts` | auth/pkg/infra/memory/session_store.go:59-90 | A login's token is found for its user until its period is over, to the second. |
| `Sessions.RunKeeps` | auth/pkg/infra/memory/session_store.go:48-126 | Every run keeps the store's tokens issued, unspent and one per login. |
| `Sessions.SessionStore.Rotate` | auth/pkg/infra/memory/session_store.go:103-126 | Replaces a live, unexpired key by the new one and reports it; deletes an expired one; refuses a missing one. |
| `Sessions.SessionStore.EvictExpired` | auth/pkg/infra/memory/session_store.go:48-57 | Removes exactly the expired entries and keeps the rest as they are. |
| `Sessions.SessionStore.Lookup` | auth/pkg/infra/memory/session_store.go:73-90 | Finds exactly a present, unexpired entry, and asks for a purge exactly of an expired one. |
| `Sessions.SessionStore.Set` | auth/pkg/infra/memory/session_store.go:59-71 | Stores the entry with its expiry and nothing else changes. |
| `Sessions.SessionStore.Delete` | auth/pkg/infra/memory/session_store.go:92-101 | Removes that key only. |
| `Outbox.NothingIsDroppedSilently` | shared/pkg/outbox/outbox.go:83-102 | Over any run with a broker, whatever publishes and marks fail, a row that is no longer pending was itself published with the bytes it was stored with; another row's equal bytes do not count. |
| `Outbox.RowsKeepTheirBytes` | shared/pkg/outbox/outbox.go:90-93 | A row's subject and payload are those it was enqueued with for ever after. |
| `Outbox.EveryListedRowIsTried` | shared/pkg/outbox/outbox.go:88-102 | In one pass each listed row ends as its own outcome alone decides, whatever happened to earlier rows; rows not listed stay; the broker receives the delivered ones in order. |
| `Outbox.FirstErrorIsFirst` | shared/pkg/outbox/outbox.go:87-102 | The reported error is that of the earliest row that went wrong, and there is none exactly when none did. |
| `Outbox.DiscardMarksAPrefix` | shared/pkg/outbox/outbox.go:68-81 | Without a broker the listed rows up to the first error are handled as their replies say, and no later row is touched. |
| `Outbox.OverlapDropsNothing` | shared/pkg/outbox/outbox.go:105-132 | The same when the worker's and the handlers' passes overlap, call by call, with each other and with new rows: a row is marked only once it was itself published with its stored bytes. |
| `Outbox.PassesNeeded` | shared/pkg/outbox/outbox.go:83-102 | While nothing fails, k passes leave max(0, n - 50 k) of n pending rows, so exactly ceil(n / 50) passes empty them. |
| `Outbox.OldFailuresBlockTheRest` | auth/pkg/infra/postgres/outbox.go:53-59 | While the fifty oldest rows are refused, no pass ever lists the next one: the limit of the promise. |
| `Outbox.Drainer.Drain` | shared/pkg/outbox/outbox.go:67-103 | The pass with and without a broker, its listing failure and its first error are the specified ones. |
| `Outbox.Drainer.PublishRow` | shared/pkg/outbox/outbox.go:89-101 | One row: published and marked, or its failed attempt noted. |
| `Outbox.Drainer.DiscardPending` | shared/pkg/outbox/outbox.go:68-81 | Without a broker up to a hundred rows are marked, stopping at the first error. |
| `Outbox.PendingLists` | auth/pkg/infra/postgres/outbox.go:53-59 | The listing holds exactly the unpublished rows, oldest first. |
| `Outbox.Drainer.MarkPublished` | auth/pkg/infra/postgres/outbox.go:75-83 | Sets the row published and clears its error. |
| `Outbox.Drainer.RecordAttempt` | auth/pkg/infra/postgres/outbox.go:85-95 | Counts the attempt and stores its error; the row stays pending. |
| `Ordering.SortedIsUnique` | order/pkg/service/service.go:493-501 | When ties are equal one collection has one sorted arrangement, so any sorting algorithm returns it. |
| `Ordering.SortSorts` | product/pkg/domain/recommend.go:65-73 | The sort returns a sorted permutation of its input. |
| `Ordering.SortIsStable` | product/pkg/domain/recommend.go:65-73 | Elements that tie keep the order they came in. |
| `Ordering.SortInPlace` | product/pkg/domain/recommend.go:65-73 | The in-place sort leaves the array as the stable sort of what it held. |
| `Ordering.FirstDifferenceDecides` | product/pkg/domain/recommend.go:72-72 | Strings compare by the first place where they differ, and a prefix comes first. |
| `Fingerprint.SameRequestSameRecord` | order/pkg/service/service.go:476-511 | Two requests have equal records before hashing exactly when their trimmed scalars agree and their trimmed lines agree as multisets. |
| `Fingerprint.OneLineChanged` | order/pkg/service/service.go:482-501 | Replacing one line leaves the record the same exactly when quantity and trimmed identifiers are the same. |
| `Fingerprint.ScalarsCompared` | order/pkg/service/service.go:476-511 | Discount and address are compared as given, every other scalar trimmed. |
| `Fingerprint.AnySortGivesTheRecord` | order/pkg/service/service.go:493-501 | Any sorted permutation of the trimmed lines is the record's line list, so the library's unstable sort is as good as a stable one. |
| `Fingerprint.LinesAreOrdered` | order/pkg/service/service.go:493-501 | The comparison on all three fields is a total order without ties between different lines. |
| `Fingerprint.BuildFingerprint` | order/pkg/service/service.go:476-503 | The loop and the in-place sort build exactly the specified record. |
| `Ranking.TheBestAreReturned` | product/pkg/domain/recommend.go:43-81 | The answer is sorted, made of eligible candidates, as long as the limit and the eligible ones allow, and nothing left out stands above anything returned. |
| `Ranking.BestFirst` | product/pkg/domain/recommend.go:43-81 | Only other, active products of the seed's category are recommended, by score, then views, then id, at most as many as asked for; any such product is left out only when the answer is full of products ahead of it. |
| `Ranking.ListingOrderIsIrrelevant` | product/pkg/domain/recommend.go:65-73 | When ids identify products, any permutation of the candidates gives the same ranking. |
| `Ranking.ShortlistHolds` | product/pkg/domain/recommend.go:52-63 | The shortlist holds each eligible candidate as often as it was given, with its own score, and nothing else. |
| `Ranking.RankRecommendations` | product/pkg/domain/recommend.go:43-81 | Filtering, sorting in place and cutting return the specified cut of the ranking. |
| `Sku.BuildThenParse` | product/pkg/domain/sku.go:70-121 | Whatever prints parses back to the segment-wise normal form of the input. |
| `Sku.ParseThenBuild` | product/pkg/domain/sku.go:91-121 | Whatever parses prints again, and prints as the trimmed text exactly unless it has five segments with the edition empty. |
| `Sku.BlankEditionLosesASeparator` | product/pkg/domain/sku.go:106-113 | For every code without an edition, the spelling with an empty edition segment parses but prints back shorter. |
| `Sku.SkusAreUnambiguous` | product/pkg/domain/sku.go:72-87 | Two printable inputs share a SKU exactly when they normalize to the same segments. |
| `Sku.NormalizeCode` | product/pkg/domain/sku.go:30-38 | The loop keeps exactly the letters and digits of the upper-cased, trimmed text. |
| `Sku.NormalFormsKeepTheRest` | product/pkg/domain/sku.go:30-38 | A normal form holds exactly the letters and digits of the trimmed text, in upper case and in their order. |
| `Sku.WhatPrints` | product/pkg/domain/sku.go:51-87 | Parts print exactly when the normalized brand has two or three letters A to Z, style, color and size one to twelve code characters and the edition at most twelve; they print in that order, joined by underscores, without an empty edition. |
| `Sku.NormalFormsAreAlnum` | product/pkg/domain/sku.go:30-38 | Nothing else survives normalization, so never a separator. |
| `Sku.CodesAreNormal` | product/pkg/domain/sku.go:30-38 | A code of upper-case ASCII letters and digits is its own normal form. |
| `Sku.SplitJoin` | product/pkg/domain/sku.go:86-96 | Splitting a join of separator-free segments gives them back. |
| `Sku.JoinSplit` | product/pkg/domain/sku.go:86-96 | Joining the segments of any text gives the text back. |
| `Permissions.HasIsTokenwise` | shared/pkg/permissions/eval.go:39-61 | The evaluator's successive passes grant a permission exactly when some single held token does. |
| `Permissions.GroupTokensGrant` | shared/pkg/permissions/eval.go:65-79 | A group token such as product.* grants its own name, its group and what is below it, and nothing else. |
| `Permissions.OtherTokensGrant` | shared/pkg/permissions/eval.go:39-61 | The star grants everything, admin.* itself and what concerns users, and a token without a wildcard only itself. |
| `Permissions.DedupeKeepsGrants` | shared/pkg/permissions/normalize.go:53-73 | Cleaning a list changes no grant of a nonempty permission. |
| `Permissions.DedupeKeepsEachOnce` | shared/pkg/permissions/normalize.go:53-73 | Exactly the nonempty entries remain, each once, in first-seen order. |
| `Permissions.Dedupe` | shared/pkg/permissions/normalize.go:53-73 | The loop with its seen set computes that list. |
| `Permissions.OnlyStarGrantsStar` | shared/pkg/permissions/normalize.go:10-30 | A list of valid tokens without * does not grant *. |
| `Permissions.WhatIsValid` | shared/pkg/permissions/normalize.go:10-30 | A group token is valid exactly when its group is a nonempty slug, and any other token exactly when it is the star or a permission in the catalog. |
| `Accounts.OwnersNeverChange` | auth/pkg/handler/handler.go:281-442 | Over every run of register, set-permissions, set-password, set-status and delete, the accounts that grant * are always the same and none of them is modified or removed. |
| `Accounts.OwnersUntouched` | auth/pkg/handler/handler.go:150-193 | The same for a single request of any kind. |
| `Accounts.ManagesExactlyBelow` | auth/pkg/domain/abac.go:87-98 | CanManage is exactly the strict rank order of the four classes. |
| `Accounts.RanksFromTokens` | auth/pkg/domain/abac.go:19-85 | Which tokens and account type make a customer, manager, admin or owner, for callers and for stored accounts. |
| `Accounts.AdministrationTakesEffect` | auth/pkg/handler/handler.go:344-442 | A status change, a deletion or a password of at least eight characters takes effect exactly when the caller ranks above the target, another account, and then touches nothing else. |
| `Accounts.PermissionsTakeEffect` | auth/pkg/handler/handler.go:281-342 | A permission change takes effect exactly when the caller ranks above the target as it is and as it is to be and the list is nonempty and valid; it stores the cleaned list and the type, and nothing else. |
| `Accounts.RegistrationTakesEffect` | auth/pkg/handler/handler.go:150-230 | A registration takes effect exactly when it is open, or its caller may create users and ranks above the new account, registrars creating customers only; the new account holds no permissions. |
| `Accounts.AssignmentsStayBelow` | auth/pkg/domain/abac.go:140-156 | An accepted permission change leaves its target strictly below the caller, as it was before. |
| `Accounts.ClassSurvivesDedupe` | auth/pkg/domain/abac.go:56-79 | Storing the cleaned list keeps the class that was authorized. |
| `Text.TrimSpaceTrims` | product/pkg/domain/sku.go:91-92 | Trimming leaves no blank at either end, and leaves trimmed text alone. |
| `Text.TrimSpaceFinds` | product/pkg/domain/sku.go:91-92 | Trimming finds the text between any blanks. |

## Left out

- OrderMoney: several payment ids for one order, a failing release, and a service that dies between two calls. The code excludes no bad outcome there.
- OrderTheorems.NoReservationLeaks: holds of guarded runs; the code has no such guard, and `OrderLimits.GuardIsNeeded` is a run with one unguarded refund after which stock is wrong.
- OrderProtocol: order, reservation, payment and customer ids are numbers with 0 for the blank string; payment ids are taken as already trimmed. Pricing lines from the catalogue, delivery-address validation, the columns a shipment writes, timestamps other than the payment deadline, and outbox rows written with each save are not modelled.
- OrderProtocol: integers are unbounded; int64 overflow of an order's amounts is not modelled (in `Refunds` it is).
- OrderProtocol: a call reported as failed is assumed not to have taken effect, so an ambiguous commit of a save and a reservation whose reply is lost are not modelled.
- OrderHandlers: the fulfilment handler is in the transition system only. An undeliverable address is a flag. The time an operator cancel spends between its load and its save is not modelled.
- CheckoutClaim: no payment arrives and nobody edits the basket while completions run; a claim reported as failed did not take effect.
- CheckoutSession: discount fractions are reals, so floating-point rounding is not modelled; the unavailable-items annotation, ids and update times are left out.
- Refunds: cancels of one payment are serialized by the repository. A result callback or completion running beside cancels is not modelled.
- Refunds.Ledger.CancelPayment: takes a payment already loaded; a missing payment and a failing event encoding or save, which store nothing, are not modelled.
- Inventory: the memory store visits lines sorted by id; the model visits them as given, which affects only which line's refusal is reported. Reservation ids are positions. `UpsertItem` and `AdjustStock` as methods run their store calls without interruption; `Inventory.EveryRunBalances` is about interleaved calls. Sold counts and timestamps are left out.
- Lockout: every save succeeds, and attempts on one account come one after another. Passwords are judged by a flag in the attempt.
- Sessions: token strings are numbers and a generated one is new; signing, claims and the Redis store are not modelled.
- Outbox: the row-by-row and timing results are about one pass at a time; overlapping passes may deliver a row more than once. Rows that fail for ever can starve later ones (`Outbox.OldFailuresBlockTheRest`), so no liveness is claimed.
- Fingerprint: hashing and encoding are taken as injective. Strings are sequences of Unicode scalar values; ill-formed UTF-8 is not modelled.
- Ranking: the score is an arbitrary real-valued function of the candidate, so its weights, its logarithm and its rounding are not modelled.
- Sku: the Unicode tables for upper case, letters and digits are parameters. The legacy option codes and style codes are left out.
- Accounts: each request is atomic. Emails, tokens, password hashing and the check that a user exists by email are left out; a password is accepted by length.
- HTTP routing, JSON, NATS, SQL, object storage, the Telegram bot, the web client, catalogue and cart handling, search and scripts are not part of this model.
