# A verified model of the marketplace's checkout, payment and fulfilment core

The marketplace takes a cart with items of several stores, reserves the stock, creates one order per
store under one payment group, and then waits for whichever event resolves the group first: a wallet
debit, a Paystack webhook, a poll, the reconciler, an expired bank transfer, a Klump verification, a
cancellation, or a payment that succeeds after the cancellation. Each of these rewrites payment, group,
orders, stock, wallets and refunds in one database transaction. Later, stores prepare the orders, riders
claim and deliver them, customers cancel, staff intervenes, rewards accrue.

This project models that machine and proves what it keeps over every run, under every interleaving of its
transactions.

| module | what it holds |
|---|---|
| `Outcome`, `Money`, `Ledger` | results, half-up rounding of exact amounts, wallets with append-only ledgers |
| `Quote`, `Pricing`, `Residue`, `Settlement`, `Instalments` | the arithmetic: cart rows and what they come to, vouchers, coupon spreading and a cart that loses a kobo to it, deductions, repayment plans and due dates |
| `Fingerprint` | canonical JSON, its text and its hash |
| `OrderLife` | the status table and the history rows |
| `Shop` | the rows and, for each database transaction, the function that gives its result or its error |
| `Invariant` | what holds of the rows at every moment, and how rows may evolve |
| `StockMoves`, `Resolution`, `Placement`, `Paying`, `Cancelling`, `Fulfilment`, `WalletSteps` | each transaction keeps the invariant |
| `Progress` | the other half: what each event brings about, and exactly when it is refused |
| `Submission`, `Decisions` | what a placed checkout owes to its quote, and for each other call when it is refused and what it writes |
| `Runs` | the machine: any step, any order, any number of times |
| `Refunds`, `Guarantees`, `WalletGuarantees` | what follows for customers, stores and riders in every reachable state |
| `Causes`, `Evidence` | the way back: which answer, reported by whom, lies behind each resolved checkout, and which scan or code behind each order status |
| `Frames`, `Permanence`, `Witness` | what no other step touches, what can never be made good and exactly when, and three runs computed step by step |
| `Database` | the services in their own form: tables updated row by row in loops, with rollback, refining the machine's steps |
| `Rewards` | cashback redemption as a loop over rows |
| `Campaign`, `CampaignRules`, `Straggler`, `Dispatcher` | push campaigns: the approval and sending machine, what may bring each status about and what was reviewed, a run whose counts are off, and the dispatcher's batch loop |

Amounts are integer kobo, rates exact fractions. Automatic ids are positions in a sequence. A Paystack or
Klump verification is two steps: reading payment and groups together with the provider's answer, and, any
number of other steps later, the transaction that reads the payment again. A dedicated-account transfer is
a handler that starts only while there is no payment row, records the row, credits the wallet, and may die
in between. Provider answers, scans, credentials, clocks and audiences are arguments of the steps, so every
statement holds for all of them.

Where the code does less than one might expect, that is stated with its exact condition and a run that
shows it, rather than modelled away:

- an older success turns a refunded payment back into PAID (`Progress.StaleAnswerDecided`,
  `Witness.StaleSuccessRewrites`);
- a dedicated-account transfer is never credited once its handler died between its halves, or once a
  second delivery of the webhook overtook it (`Permanence.TransferIsLostExactly`,
  `Permanence.CrashLosesTransfer`, `Permanence.TransferCanBeLost`);
- a top-up whose failure is reported after its success stays credited and is never PAID again
  (`Permanence.TopupIsUnmarkedExactly`, `Permanence.CreditedTopupCanFail`);
- an order that staff marks delivered or completed never pays its rider the held fee
  (`Permanence.FeeIsStrandedExactly`, `Witness.FeeIsStranded`);
- a Klump payment that succeeds after its checkout was released is neither accepted nor refunded
  (`Progress.KlumpDecided`, `Permanence.LateKlumpIsRefused`, `Witness.LateKlumpRun`);
- valid settlement rates can refuse to settle an order (`Settlement.RefusedExactlyOnOvershoot`,
  `Settlement.HalfAndHalfRefusesOneKobo`);
- a store's or a rider's withdrawal can overdraw, since the balance is checked before its transaction
  (`Decisions.StoreWithdrawalDecided`, `Decisions.RiderWithdrawalDecided`);
- spreading a coupon can lose a kobo (`Quote.ResidueExactly`, `Quote.NothingIsLeftExactly`,
  `Residue.ResidueIsReal`);
- a campaign whose earlier batch broke off can be SENT with counts that do not add up
  (`Campaign.CountsAddUpExactly`, `Straggler.CountsAreOff`).

Single-row transactions of `Database.Tables` (top-up, transfer, status changes, packing, pickup, rider
reports) follow their specification line by line; the table below lists the ones with loops, rollback or
several rows.

## Model

| member | source | states |
|---|---|---|
| `Money.ToKobo` | src/common/money.ts:4-10 | a negative amount is refused, and exactly those; any other is within half a kobo of the exact amount, a half going up |
| `Money.HalfUpUnique` | src/common/money.ts:4-10 | the half-up kobo amount is the only one with that property |
| `Quote.QuoteIsSound` | src/checkout/checkout.service.ts:155-266 | for every cart, voucher and coupon: each line of the priced cart lands in exactly one order, that of its store; each total is subtotal plus fee less discounts and never negative; the quote's total is the sum of its orders' |
| `Pricing.QuoteIsExact` | src/checkout/checkout.service.ts:155-266 | every line is its cart row's item, product, store and quantity at the discount price if there is one, else the price; the subtotal is price times quantity over the rows; every order carries the one fee, its voucher discount and its part of the coupon, as stated independently of the code that spreads them |
| `Pricing.QuoteDecided` | src/checkout/checkout.service.ts:129-220 | a cart is quoted if and only if it is not empty, can be delivered as asked, every row is on sale, in stock and of no negative price, and voucher and coupon are in force and usable |
| `Pricing.VoucherDecided` | src/checkout/checkout.service.ts:197-207 | one order under a voucher: nothing elsewhere, the fee, the nearest kobo to its percentage, or its amount, within the goods; refused only for a negative amount |
| `Pricing.CouponDecided` | src/checkout/checkout.service.ts:217-231 | a coupon is worth its percentage of the gross subtotal or its amount, within its maximum and what is payable, to the nearest kobo |
| `Pricing.SpreadAt` | src/checkout/checkout.service.ts:232-247 | each store's part of the coupon, the last one's too, from what the stores before it took |
| `Quote.GroupingPartitions` | src/checkout/checkout.service.ts:170-187 | grouping by store neither loses nor doubles a line, and subtotals add up to the cart |
| `Quote.VoucherTakesOff` | src/checkout/checkout.service.ts:197-207 | a voucher takes off nothing elsewhere, the fee, its percentage to the nearest kobo, or its amount, and never more than the goods |
| `Quote.SpreadCoupon` | src/checkout/checkout.service.ts:232-247 | the loop that threads the remaining discount through the stores computes the recursive spread |
| `Quote.SpreadSound` | src/checkout/checkout.service.ts:232-247 | spreading allocates what it takes from the remaining discount, never more than there is, and leaves every total non-negative |
| `Quote.ResidueExactly` | src/checkout/checkout.service.ts:232-247 | for every input, with vouchers and without: what spreading leaves over is exactly what exceeds the stores' capacity, each store's being its rounded proportion, the last one's anything, and never more than its total |
| `Quote.CouponTakesOff` | src/checkout/checkout.service.ts:232-253 | so a coupon takes off its worth or that capacity, whichever is less |
| `Quote.NothingIsLeftExactly` | src/checkout/checkout.service.ts:217-247 | without a voucher and with a coupon within the gross subtotal, nothing is left over if and only if the rounded proportions of all stores but the last, with the last one's total, cover the coupon |
| `Quote.ResidueBound` | src/checkout/checkout.service.ts:217-247 | hence what is left over n stores is nothing, or so small that twice it and the fee is below n - 1 |
| `Residue.ResidueIsReal` | src/checkout/checkout.service.ts:155-266 | a cart of four stores, quoted in full, whose coupon of four kobo takes only three off: the bound is not zero in general |
| `Fingerprint.CanonicalDecides` | src/checkout/checkout.service.ts:19-34 | two JSON values have one canonical form if and only if they differ only in key order, at any depth |
| `Fingerprint.TextReads` | src/checkout/checkout.service.ts:19-34 | the serialised text can be read in only one way, escapes and nesting included |
| `Fingerprint.FingerprintDecides` | src/checkout/checkout.service.ts:16-34 | equal fingerprints if and only if equal up to key order, for a collision-free hash |
| `Settlement.OvershootAtMostOne` | src/settlements/settlements.service.ts:30-40 | with rates summing to at most one, the three rounded deductions exceed the subtotal by at most one kobo |
| `Settlement.SharesAreNearest` | src/settlements/settlements.service.ts:35-38 | each deduction is its rate's exact share to the nearest kobo, and the store gets the rest |
| `Settlement.RatesDecided` | src/settlements/settlements.service.ts:16-34 | the configuration accepts exactly three rates that together do not exceed one |
| `Settlement.RefusedExactlyOnOvershoot` | src/settlements/settlements.service.ts:30-40 | valid rates refuse an order exactly when they overshoot by that kobo; otherwise the shares sum to the subtotal |
| `Settlement.RoomForRounding` | src/settlements/settlements.service.ts:30-40 | when more than half a kobo is left before rounding the split succeeds |
| `Settlement.DefaultRatesAlwaysSettle` | src/settlements/settlements.service.ts:26-40 | the shipped rates settle every subtotal |
| `Settlement.HalfAndHalfRefusesOneKobo` | src/settlements/settlements.service.ts:30-40 | rates of one half each pass the configuration check and cannot settle one kobo |
| `Ledger.PostKeepsSound` | src/settlements/settlements.service.ts:89-134 | posting an entry keeps every balance equal to its ledger's credits and releases less debits, and references unique |
| `Ledger.ChargeCovered` | src/payments/payments.service.ts:1286-1316 | a guarded debit takes exactly its amount and never goes below zero |
| `Ledger.MovedOnce` | src/payments/payments.service.ts:1573-1624 | with unique references, all entries under one reference together move what one entry moves |
| `OrderLife.TerminalIsLast` | src/orders/order-status.ts:3-30 | nothing is ever recorded after COMPLETED or CANCELLED |
| `OrderLife.ConfirmedOrReleased` | src/orders/order-status.ts:3-30 | an order beyond ORDER_RECEIVED was confirmed, unless its release is all that ever happened to it |
| `StockMoves.ReserveLinesEffect` | src/checkout/checkout.service.ts:329-349 | a reservation that succeeds takes every unit of every line from stock that was there |
| `StockMoves.ReservationDecided` | src/checkout/checkout.service.ts:330-349 | a reservation succeeds if and only if every line is on sale at its quoted price and the shelf covers all lines of each product together |
| `StockMoves.ReturnLinesEffect` | src/payments/payments.service.ts:1639-1645 | a return gives back every unit, no more |
| `Resolution.ConfirmOrderEffect` | src/payments/payments.service.ts:1340-1354 | confirming an unpaid order moves it and credits its store with its share of the subtotal, and does nothing else |
| `Resolution.CompleteGroupRestores` | src/payments/payments.service.ts:1333-1401 | completing a group confirms and settles each of its orders once and restores the whole invariant |
| `Resolution.FailGroupRestores` | src/payments/payments.service.ts:1631-1667 | releasing an unpaid group always succeeds, returns all its stock, cancels all its orders and restores the invariant |
| `Placement.CreateCheckoutKeeps` | src/checkout/checkout.service.ts:291-464 | submitting a checkout, whatever its method and outcome, keeps the invariant and every unit of stock |
| `Submission.CheckoutFollowsQuote` | src/checkout/checkout.service.ts:315-464 | a checkout that succeeds follows the quote of its request: one order per quoted order with that store, items, fee, discounts and total and a delivery row exactly for deliveries, a group of the quoted total, stock and wallet moved, earlier rows untouched |
| `Submission.CheckoutDecided` | src/checkout/checkout.service.ts:291-464 | a new checkout is refused exactly when its cart cannot be quoted, a financed quote has changed, stock is missing, the wallet does not cover the total, or an order paid at once cannot be settled |
| `Submission.RefusedLikeItsQuote` | src/checkout/checkout.service.ts:315-328 | and with the quote's own error when there is no quote |
| `Paying.InitializePaystackKeeps` | src/payments/payments.service.ts:113-165 | starting a Paystack payment keeps the invariant |
| `Paying.InitializeKlumpKeeps` | src/bnpl/klump.service.ts:32-104 | starting a Klump payment keeps the invariant |
| `Paying.BeginVerifyKeeps` | src/payments/payments.service.ts:636-660 | reading payment, groups and answer keeps the invariant |
| `Causes.ReadDecided` | src/payments/payments.service.ts:636-790 | reading is refused if and only if there is no such payment of that provider or the reported amount is not exactly its amount; a Paystack answer for a payment PAID or refunded changes nothing; any other is kept with that payment, its groups and that very answer |
| `Causes.NothingWithoutCause` | src/payments/payments.service.ts:791-842 | no payment and no group changes its status in any step but by a verification under way with that answer, its owner's cancellation, or a refund of it |
| `Causes.EveryOutcomeWasReported` | src/payments/payments.service.ts:766-842 | over any run from an empty shop: every verification under way, every group PAID through a provider, every payment PAID or FAILED goes back to a step in which the provider reported exactly that payment's amount and gave that answer, or, FAILED, to its owner giving up |
| `Paying.VerifyPaystackKeeps` | src/payments/payments.service.ts:791-842 | the verification transaction keeps the invariant whatever happened since the answer was read |
| `Paying.LateRefundsRestore` | src/payments/payments.service.ts:798-828 | a payment that succeeds after the release is refunded order by order, in full, and nothing else changes |
| `Paying.VerifyKlumpKeeps` | src/bnpl/klump.service.ts:268-312 | so does Klump's verification, including the re-verification of a refunded payment |
| `Paying.RecheckChangesNothing` | src/payments/payments.service.ts:645-660 | re-verifying a PAID payment finds no group left to complete |
| `Paying.CancelCheckoutKeeps` | src/payments/payments.service.ts:1670-1718 | cancelling an unpaid checkout keeps the invariant |
| `Cancelling.CancelOrderKeeps` | src/orders/orders.service.ts:414-533 | cancelling a paid order keeps the invariant: stock, refund, payment status and settlement move together |
| `Cancelling.CancelRows` | src/orders/orders.service.ts:425-527 | stock, wallet refund and reversal of a paid order can never be refused |
| `Decisions.CancelRefunds` | src/orders/orders.service.ts:448-507 | a cancelled wallet order is refunded SUCCEEDED to the wallet and its payment becomes REFUNDED if and only if all of it is, else PARTIALLY_REFUNDED; a Klump order waits in MANUAL_REVIEW and any other is REQUESTED of Paystack, with the payment as it was |
| `Progress.SuccessCompletes` | src/payments/payments.service.ts:830-835 | a successful answer for an unresolved checkout leaves group and payment PAID and all orders confirmed; it is refused if and only if some order cannot be settled at the rates in force |
| `Progress.DefaultRatesNeverRefuse` | src/settlements/settlements.service.ts:26-40 | at the shipped rates that never happens |
| `Progress.FailureReleases` | src/payments/payments.service.ts:836-839 | a failed answer for an unresolved checkout is never refused: group and payment FAILED, all orders cancelled |
| `Progress.LateSuccessRefunds` | src/payments/payments.service.ts:798-828 | a success for a released checkout is never refused: payment PAID, every order cancelled with a refund of its total |
| `Progress.StaleAnswerDecided` | src/payments/payments.service.ts:795-839 | an answer for a checkout resolved before it is refused or changes nothing, except in exactly three cases a caller can read off group, payment and answer: a success rewrites a refunded payment to PAID, a failure rewrites the refunded payment of a released checkout to FAILED, a success for a released checkout brings the refunds |
| `Progress.RewritesStatusOnly` | src/payments/payments.service.ts:797-839 | the two rewrites change the payment's status and nothing else |
| `Witness.StaleSuccessRewrites` | src/payments/payments.service.ts:797-835 | a run from an empty shop after which a second, older success turns a REFUNDED payment back into PAID |
| `Progress.CancelReleases` | src/payments/payments.service.ts:1694-1718 | the cancelling transaction is never refused to the owner of an unresolved checkout: group FAILED, orders cancelled, any payment FAILED; the provider verification that the service makes first, and may fail on, is the separate verification steps |
| `Decisions.GiveUpDecided` | src/payments/payments.service.ts:1670-1718 | the owner may cancel a checkout unless it or its payment is PAID; one already released stays as it is |
| `Progress.CancelDecided` | src/orders/orders.service.ts:414-507 | an order can be cancelled if and only if its owner asks and it is CONFIRMED or PREPARING; it is then cancelled with a refund of its total |
| `Progress.PaystackStartsOnce` | src/payments/payments.service.ts:113-165 | one payment of the group's amount is created, and starting again creates nothing |
| `Decisions.PaystackStartDecided` | src/payments/payments.service.ts:113-165 | Paystack starts for the owner's card, transfer and Opay checkouts that did not fail |
| `Decisions.KlumpStartDecided` | src/bnpl/klump.service.ts:32-104 | Klump starts for the owner's Klump checkouts that did not fail, if and only if group and orders are whole naira |
| `Progress.ResubmissionFindsIt` | src/checkout/checkout.service.ts:300-314 | submitting the same input again, in any key order, answers with the checkout just made |
| `Progress.VoucherIsPaidOnce` | src/rewards/rewards.service.ts:213-252 | a voucher costs its points once; claiming it again is free and changes nothing |
| `Decisions.VoucherDecided` | src/rewards/rewards.service.ts:213-252 | a voucher is had by those who have it and those whose points cover it |
| `Cancelling.SetRefundStatusKeeps` | src/payments/payments.service.ts:474-510 | any later refund status keeps the invariant |
| `Decisions.RefundStatusDecided` | src/payments/payments.service.ts:474-510 | a refund that exists takes any status; payment, amount and provider stay |
| `Cancelling.SyncAfterRefundKeeps` | src/payments/payments.service.ts:510-524 | synchronising a payment with its refunds keeps the invariant |
| `Fulfilment.StoreSetStatusKeeps` | src/orders/orders.service.ts:324-385 | a store's status change keeps the invariant |
| `Decisions.StoreMoveDecided` | src/orders/orders.service.ts:324-385 | a store moves CONFIRMED to PREPARING and PREPARING to READY_FOR_PICKUP, and nothing else |
| `Fulfilment.AdminSetStatusKeeps` | src/admin/admin.service.ts:43-98 | staff intervention keeps it and never confirms, cancels or revives an order |
| `Decisions.StaffMoveDecided` | src/admin/admin.service.ts:43-98 | staff makes the thirteen listed moves and no other; only completing adds points, and those of the order's total |
| `Fulfilment.PackingKeeps` | src/scanning/scanning.service.ts:225-259 | packing keeps the invariant |
| `Decisions.PackingDecided` | src/scanning/scanning.service.ts:225-259 | packing takes every item scanned and an order CONFIRMED or PREPARING |
| `Fulfilment.ClaimEffect` | src/delivery/delivery.service.ts:306-383 | a claim assigns the rider and holds exactly the shipping fee for them |
| `Fulfilment.ClaimKeeps` | src/delivery/delivery.service.ts:306-383 | a claim keeps the invariant |
| `Decisions.ClaimDecided` | src/delivery/delivery.service.ts:306-383 | a claim succeeds if and only if the order is ready and its delivery has no rider |
| `Fulfilment.RiderUpdateKeeps` | src/delivery/delivery.service.ts:523-614 | a rider's report keeps the invariant |
| `Decisions.ReportDecided` | src/delivery/delivery.service.ts:523-614 | only the assigned rider reports, only the sixteen listed moves; being under way presumes a collected parcel and takes the order to OUT_FOR_DELIVERY |
| `Decisions.ReportsAre` | src/delivery/delivery.service.ts:26-37 | the sixteen moves are those of the delivery table short of the two that need a scan |
| `Fulfilment.ConfirmPickupKeeps` | src/scanning/scanning.service.ts:276-305 | a pickup keeps the invariant |
| `Decisions.PickupDecided` | src/scanning/scanning.service.ts:276-305 | a pickup takes the assigned rider, the store's credential and the complete checklist of an order ready or claimed |
| `Fulfilment.DeliveryEffect` | src/scanning/scanning.service.ts:307-341 | the customer's QR delivers and completes the order, pays out the held fee and nothing else, and adds the points |
| `Fulfilment.ConfirmDeliveryKeeps` | src/scanning/scanning.service.ts:307-341 | a delivery keeps the invariant |
| `Decisions.HandOverDecided` | src/scanning/scanning.service.ts:307-341 | a hand-over takes the assigned rider, the customer's credential and an order OUT_FOR_DELIVERY, and is then never refused |
| `Evidence.NoStatusWithoutEvidence` | src/orders/order-status.ts:3-30 | whatever is attempted: no order takes a status but from the step, the person and the scans or answer that this status calls for |
| `Fulfilment.CompleteOrderKeeps` | src/orders/complete-order.ts:11-70 | completing an order adds the points of its total, once |
| `Decisions.CompletionEarns` | src/orders/complete-order.ts:46-56 | a completion adds k points where 100 000 k kobo is at most the total and 100 000 (k + 1) is more, to that customer alone |
| `WalletSteps.VerifyTopupKeeps` | src/payments/payments.service.ts:706-764 | verifying a top-up keeps the invariant |
| `Decisions.TopupDecided` | src/payments/payments.service.ts:706-764 | a report counts if and only if it names the top-up's amount and a first success was not credited before; the wallet moves by that amount on the first success only |
| `WalletSteps.CreditTransferKeeps` | src/payments/payments.service.ts:1573-1624 | crediting a transfer keeps the invariant |
| `Decisions.RedeliveryDecided` | src/payments/payments.service.ts:326-337 | a redelivered transfer counts if it is PAID or names the row's amount; it writes the row's status and moves no money |
| `Decisions.RecordDecided` | src/payments/payments.service.ts:1573-1588 | a handler writes the row of its own user and amount, once |
| `Decisions.ChargeDecided` | src/payments/payments.service.ts:1286-1316 | a charge is refused exactly when the balance does not cover it or its reference was used |
| `Decisions.StoreWithdrawalDecided` | src/stores/store-wallet.service.ts:56-102 | a store's withdrawal does not look at the balance in its transaction: it goes below zero exactly when the balance no longer covers the amount |
| `Decisions.RiderWithdrawalDecided` | src/riders/rider-wallet.service.ts:65-110 | so does a rider's |
| `WalletSteps.ClaimVoucherKeeps` | src/rewards/rewards.service.ts:213-252 | buying a voucher keeps the points formula and never overspends |
| `Runs.StepKeeps` | src/payments/payments.service.ts:791-842 | whatever is attempted and whether or not it is refused: the invariant holds, rows evolve lawfully, no unit of stock appears or vanishes |
| `Runs.EveryRunIsConsistent` | src/payments/payments.service.ts:1333-1667 | the invariant holds after every run of every shop that started blank |
| `Runs.EveryRunEvolves` | src/orders/order-status.ts:3-30 | between any two points of any run, final outcomes stayed final and ledgers only grew |
| `Runs.UnitsAreConserved` | src/payments/payments.service.ts:1639-1662 | stock plus held units is constant over any run in which no vendor edits a product |
| `Guarantees.GroupsTellOneStory` | src/payments/payments.service.ts:1333-1401 | in every reachable state: a group is unresolved exactly while all its orders are ORDER_RECEIVED and exactly while it occupies its cart; PAID leaves none there and the payment PAID or (partially) refunded; FAILED has all cancelled |
| `Guarantees.AmountsAgree` | src/checkout/checkout.service.ts:411-460 | in every reachable state each order's total is its lines plus fee less discounts, and orders, allocations, group total and payment amount agree |
| `Guarantees.OutcomesAreFinal` | src/payments/payments.service.ts:1631-1667 | PAID and FAILED groups, COMPLETED and CANCELLED orders stay so over any further run |
| `Guarantees.RefundsNeverExceedPayment` | src/orders/orders.service.ts:473-507 | refunds drawn on a payment, whatever their status, never sum to more than it |
| `Guarantees.RefundedMeansEveryOrder` | src/orders/orders.service.ts:493-507 | a synchronised payment is REFUNDED if and only if every order of value has a successful refund |
| `Guarantees.LatePaymentIsRefunded` | src/payments/payments.service.ts:798-828 | a FAILED group whose payment is not FAILED: all orders cancelled, no store ever credited, a refund of exactly each allocation's amount |
| `Guarantees.WalletRefundIsExact` | src/orders/orders.service.ts:455-471 | cancelling every order of a wallet checkout returns exactly what was debited, to the same wallet |
| `Guarantees.StoreIsPaidOnce` | src/settlements/settlements.service.ts:26-68 | an order credits its store once, if and only if it was ever confirmed; once cancelled its net effect is zero |
| `WalletGuarantees.BalancesMatchLedgers` | src/settlements/settlements.service.ts:89-134 | every balance of customers, riders and stores equals its ledger in every reachable state |
| `WalletGuarantees.ChargesAreCovered` | src/payments/payments.service.ts:1286-1316 | a withdrawal or wallet repayment takes exactly its amount, never overdraws and touches no other wallet |
| `WalletGuarantees.WalletCheckoutIsCovered` | src/checkout/checkout.service.ts:426-444 | a wallet checkout takes exactly the total its request is quoted and never overdraws |
| `WalletGuarantees.NoReferenceMovesTwice` | src/payments/payments.service.ts:1187-1207 | once a reference has moved money, no further run moves money under it |
| `WalletGuarantees.TopupIsCreditedOnce` | src/payments/payments.service.ts:706-764 | a top-up is credited at most once, by its own amount, and certainly when PAID |
| `WalletGuarantees.TopupMovesReported` | src/payments/payments.service.ts:737-750 | a verification credits what the provider reported, the first time only |
| `WalletGuarantees.TransferIsCreditedOnce` | src/payments/payments.service.ts:1588-1624 | the crediting half pays the handler's user the handler's verified amount, if and only if the row is not PAID and no credit exists |
| `Permanence.TransferCanBeLost` | src/payments/payments.service.ts:326-337 | a second delivery of the webhook between a handler's two halves marks the transfer PAID, and the handler at work then credits nobody, for ever |
| `Permanence.CrashLosesTransfer` | src/payments/payments.service.ts:1573-1588 | a handler that dies between its halves leaves a PENDING row that is never credited |
| `Permanence.TransferIsLostExactly` | src/payments/payments.service.ts:326-337 | an uncredited transfer is never credited over every further run if and only if it has a row, and that row is PAID or no handler is at work on it |
| `Permanence.CreditsComeFromArrivals` | src/payments/payments.service.ts:1534-1624 | over any run from an empty shop, whoever was credited for a transfer and by whatever amount is what was verified when it arrived |
| `Permanence.TopupIsUnmarkedExactly` | src/payments/payments.service.ts:737-757 | a top-up that is not PAID never will be, over every further run, if and only if its wallet already has it |
| `Permanence.CreditedTopupCanFail` | src/payments/payments.service.ts:757-764 | a failure reported after the success brings a credited top-up into that state |
| `WalletGuarantees.RiderIsPaidOnce` | src/settlements/settlements.service.ts:73-135 | the fee is held exactly for a claimed order with a fee, and paid once, to that rider, exactly when handed over by QR |
| `Permanence.OnlyQrPaysTheRider` | src/scanning/scanning.service.ts:307-341 | the fee moves in no step but the confirmation of the customer's QR by the assigned rider, and then in full |
| `Permanence.FeeIsStrandedExactly` | src/scanning/scanning.service.ts:307-322 | a held fee not yet paid is never paid over any further run if and only if the order is already DELIVERED or COMPLETED |
| `Permanence.StaffCompletionStrandsFee` | src/admin/admin.service.ts:63-66 | staff can complete only picked-up or delivered orders; a fee is held there if and only if there is a rider and a fee; after that it is never paid over any further run |
| `Witness.FeeIsStranded` | src/admin/admin.service.ts:63-66 | a run from an empty shop that ends COMPLETED with 500 kobo held and never released |
| `Permanence.LateKlumpIsRefused` | src/bnpl/klump.service.ts:272-284 | a Klump success for a released checkout is refused over every further run, and no order of it is ever refunded |
| `Progress.KlumpDecided` | src/bnpl/klump.service.ts:272-312 | a Klump success is refused if and only if the checkout was released, or is unresolved and cannot be settled; for a paid one it writes PAID, over a refunded status too |
| `Witness.LateKlumpRun` | src/bnpl/klump.service.ts:272-284 | a run from an empty shop that ends with a Klump success under way for a released checkout, refused |
| `Frames.StepIsQuiet` | src/payments/payments.service.ts:1588-1624 | no step but the funding steps touches a transfer, a top-up or their credits, no step but the hand-over hands a parcel over |
| `WalletGuarantees.ClaimIsFinal` | src/delivery/delivery.service.ts:306-383 | after one claim commits, every other claim is refused and changes nothing, over any further run, and the rider stays |
| `WalletGuarantees.CartHasOneCheckout` | src/checkout/checkout.service.ts:297-315 | a cart never has two unresolved checkouts |
| `WalletGuarantees.ResubmissionIsHarmless` | src/checkout/checkout.service.ts:300-314 | resubmitting an equal input, in any key order, returns the same group and reserves nothing; any other input is refused |
| `WalletGuarantees.KlumpTotalsAgree` | src/bnpl/klump.service.ts:379-388 | for whole-naira orders Klump's own total check can never fail |
| `WalletGuarantees.PointsAddUp` | src/orders/complete-order.ts:11-70 | points are those of completed orders less those spent, never negative |
| `WalletGuarantees.HistoriesAreWalks` | src/orders/order-status.ts:3-30 | every history is a connected walk along the table, plus packing's edge, to the current status |
| `WalletGuarantees.StockIsConserved` | src/checkout/checkout.service.ts:329-349 | from an empty shop, shelf plus held units is the first stock, and the shelf is never negative |
| `Database.Tables.Complete` | src/payments/payments.service.ts:1333-1401 | the loop over allocations does what the group's completion is specified to do, errors included |
| `Database.Tables.FailOne` | src/payments/payments.service.ts:1631-1667 | the nested loops over allocations and items do what the release is specified to do |
| `Database.Tables.FinishVerification` | src/payments/payments.service.ts:791-842 | the verification transaction is the machine's step, or leaves no trace |
| `Database.Tables.CancelUnpaid` | src/payments/payments.service.ts:1694-1718 | so does the cancellation of an unpaid checkout |
| `Database.Tables.SubmitCheckout` | src/checkout/checkout.service.ts:291-464 | reservation loops, orders, allocations, debit and payment are the machine's step; a failed reservation leaves nothing reserved |
| `Database.Tables.BeginPaystack` | src/payments/payments.service.ts:113-165 | creates the payment once and marks the group PROCESSING |
| `Database.Tables.BeginKlump` | src/bnpl/klump.service.ts:32-104 | the same for Klump, with its whole-naira item loop |
| `Database.Tables.NairaItems` | src/bnpl/klump.service.ts:379-413 | the item loop accepts exactly whole-naira orders and adds them up |
| `Database.Tables.ReadProvider` | src/payments/payments.service.ts:636-790 | payment and groups are read once the provider has answered, and kept for the transaction |
| `Database.Tables.CancelPaidOrder` | src/orders/orders.service.ts:414-533 | stock, refund, sync and reversal are the machine's step or leave no trace |
| `Database.Tables.SumRefunds` | src/orders/orders.service.ts:497-500 | the aggregate over refunds |
| `Database.Tables.Claim` | src/delivery/delivery.service.ts:306-383 | the compare-and-set claim with the fee's hold |
| `Database.Tables.Deliver` | src/scanning/scanning.service.ts:307-341 | the hand-over with release, completion and points |
| `Database.CommittedKeeps` | src/payments/payments.service.ts:791-842 | every transaction of the tables is a step of the machine and keeps the invariant |
| `Instalments.InstalmentsAddUp` | src/bnpl/bnpl.service.ts:23-40 | for any principal, rate and months the instalments sum exactly to the total payable |
| `Instalments.LastIsBarelyLargest` | src/bnpl/bnpl.service.ts:23-40 | the last instalment is at least the others and exceeds them by fewer kobo than months |
| `Instalments.TotalCoversPrincipal` | src/bnpl/bnpl.service.ts:28-31 | the total is within half a kobo of principal with interest and at least the principal |
| `Instalments.DueInItsMonth` | src/bnpl/bnpl.service.ts:41-46 | each due date is in its own following month, on the greatest day of it not past the start day |
| `Instalments.DueDatesIncrease` | src/bnpl/bnpl.service.ts:41-46 | due dates strictly increase and lie after the start |
| `Instalments.FourCenturies` | src/bnpl/bnpl.service.ts:41-46 | the calendar behind the due dates has 146 097 days in any four hundred years |
| `Instalments.MonthLengths` | src/bnpl/bnpl.service.ts:41-46 | and months of the known lengths, February alone depending on the year |
| `Instalments.Anchors` | src/bnpl/bnpl.service.ts:41-46 | with 29 days in February 2000, 28 in February 1900, and 10 957 days from 1970 to 2000 |
| `Instalments.ScheduleIsSound` | src/bnpl/bnpl.service.ts:207-234 | the schedule repays the total exactly, one instalment per following calendar month |
| `Rewards.Cashback.Redeem` | src/rewards/rewards.service.ts:80-125 | redeems exactly the amount or nothing; succeeds if and only if it is positive and covered; cashback falls by what the wallet gains |
| `Rewards.DrawIsExact` | src/rewards/rewards.service.ts:96-110 | no row is over-redeemed and exactly the amount is drawn, rewards of nothing included |
| `Rewards.DrawIsOldestFirst` | src/rewards/rewards.service.ts:96-110 | a row is drawn on only when every older one is used up |
| `Rewards.DrawClosesRows` | src/rewards/rewards.service.ts:96-110 | a row is marked used up exactly when nothing of it is left |
| `Campaign.EveryRunIsConsistent` | src/notifications/push-campaigns.service.ts:472-615 | the campaign invariant holds over every interleaving of management, dispatcher, failures and crashes |
| `Campaign.CancelledStops` | src/notifications/push-campaigns.service.ts:242-254 | a cancelled campaign stays cancelled, starts no further batch, and only messages already under way still go out: at most 25 of the batch at work, and those of batches that broke off |
| `Campaign.SentIsAccounted` | src/notifications/push-campaigns.service.ts:591-606 | at SENT no row is pending and every recipient has one; and unless a message of a batch that broke off was under way when counting began, delivered, failed and skipped add up to the rows |
| `Campaign.CountsAddUpExactly` | src/notifications/push-campaigns.service.ts:549-606 | a campaign about to be counted is SENT with counts that add up, however it goes on without another batch, if and only if no such message is under way |
| `Straggler.CountsAreOff` | src/notifications/push-campaigns.service.ts:549-606 | a run from a new campaign of one recipient that ends SENT with two outcomes counted |
| `Campaign.DispatchedAsApproved` | src/notifications/push-campaigns.service.ts:429-449 | every message dispatched for a vendor is, word for word, the content approved when its batch was started |
| `CampaignRules.MessagesWereReviewed` | src/notifications/push-campaigns.service.ts:429-449 | over any run: for every message of a vendor's campaign there is a step in which staff approved exactly its content |
| `CampaignRules.NoStatusWithoutCause` | src/notifications/push-campaigns.service.ts:195-254 | no campaign takes a status or an approval but by its own event from the statuses it may come from; new content has to be reviewed again |
| `CampaignRules.SchedulingDecided` | src/notifications/push-campaigns.service.ts:215-240 | a campaign is scheduled or sent if and only if it is approved, where it needs to be, and in a status that allows it; sending a failed one again retries its failed messages and no others |
| `CampaignRules.RowsChangeByAnswer` | src/notifications/push-campaigns.service.ts:549-588 | a delivery row changes only by the answer to its own message, or back to PENDING from FAILED when a failed campaign is sent again |
| `CampaignRules.BatchIsFirst` | src/notifications/push-campaigns.service.ts:543-548 | a batch is the first 25 pending rows, or all there are |
| `CampaignRules.UnapprovedGoesNowhere` | src/notifications/push-campaigns.service.ts:509-522 | a claimed campaign fails before anyone is written to exactly when it is a vendor's and unapproved or of a closed store |
| `Campaign.DeliverRows` | src/notifications/push-campaigns.service.ts:549-588 | an answer for a pending row lowers the number of pending rows by one and keeps the batch consistent |
| `Dispatcher.PushCampaign.ProcessCampaign` | src/notifications/push-campaigns.service.ts:509-615 | working a campaign off terminates whatever is cancelled and whatever throws, takes only steps of the machine, and ends SENT unless it was cancelled, broke off or may not be sent; at SENT every row that was pending or new has the outcome its provider's answer demands, and the three counts are those of the rows |
| `Dispatcher.PushCampaign.Drain` | src/notifications/push-campaigns.service.ts:538-589 | the batch loop ends: pending rows strictly decrease, each row sent ends DELIVERED, FAILED or SKIPPED as its answer says and no other row changes, and it stops at the first check after a cancellation |

## Left out

- Decimal precision: amounts are exact; the 20-digit precision of the decimal library, the safe-integer limit of `kobo` outside Klump, and column widths are not modelled.
- Providers: Paystack, Klump and the notification service appear only as arbitrary answers; signatures, references and currencies of their messages are not modelled.
- Granularity: a transaction is one atomic step and so is each check-then-write method of fulfilment and campaign management; interleavings inside them are not modelled, and neither is more than one process running the campaign dispatcher.
- Payment groups: a payment row serves one group, as every creating transaction makes it; the many-to-one column is not modelled.
- Cart bookkeeping: removing bought lines from the cart, marking vouchers redeemed and counting coupon uses on completion, and with them the coupon's usage limit over time.
- Confirmation outbox, notifications, audit rows, pickup rows and QR credential rows; a credential or a complete checklist is a Boolean argument.
- Cashback and referral rows written by order completion: the wallet credits they lead to are `Credited` steps of any amount.
- Repayments of internal credit: the instalment rows after confirmation, and the repayment's own payment; its wallet charge is a `Charged` step.
- Refund processing: the claim before the provider call is one of the status writes of `SetRefundStatus`; a synchronisation concerns a payment that has a refund row.
- References: a transfer's reference is never equal to one the shop made up itself, and random references do not repeat unless given as the same argument.
- Rider profiles: a rider who claims has one, so a fee is always held for a claimed order with a fee.
- `Fingerprint`: keys of one object are distinct and compared by a strict total order, character by character, where the code uses `localeCompare`; the engine's own placing of integer-like keys, the escaping of lone surrogates and number formatting are not modelled (a number is its text).
- One-row wallet steps (starting a top-up, a transfer's arrival, recording, redelivery and loss, charges, credits, withdrawals, voucher purchases) and rate and product edits are modelled on values only, not as methods of `Database.Tables`, so update in place is not shown for them.
- `Database.Tables` shares stock and ledger arithmetic with the specification for single-row writes; its loops are its own.
- Delivery matching, eligibility of riders, KYC, catalogue, chats, reviews, support: queries and plumbing.
