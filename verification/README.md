# Marketplace ledgers, timers and listings

The repository is a marketplace backend for car parts: customers pay offers into escrow, merchants prepare and ship, and a
scheduler moves orders along when nobody acts. This project models the parts of it where several services touch the same rows,
and proves what holds over every run of them. Check it with `dafny verify dfyconfig.toml`.

| file | what it models | main results |
|---|---|---|
| `FinancialFeed.dfy`, `StableSort.dfy` | the merged financial feed | `PageExactIff`, `WholeFeedOnce`, `HasMoreIff` |
| `EscrowLedger.dfy`, `EscrowServices.dfy`, `EscrowMoves.dfy` | hold, release, freeze, refund, verdict, and what each writes row by row | `ReleasingVerdictIff`, `RefundVerdictWrites`, `ReleaseWrites` |
| `EscrowInvariants.dfy`, `EscrowStores.dfy`, `EscrowHistory.dfy` | what runs of them keep | `LedgerBalanced`, `ShiftIsLocalIff`, `RunConservesAt`, `RunHistory` |
| `Verdicts.dfy` | a verdict's writes outside the ledger | `IssueVerdict` |
| `AutoRelease.dfy` | the hourly release of finished orders | `HandleAutoRelease` |
| `Fulfilment.dfy` | payment intents, webhooks, the PREPARATION gate | `ExactlyOnce`, `BilledAsOffered`, `WebhookReachesIff`, `OpensIff`, `KeysOpenIff`, `PreparationMeansAllPaid` |
| `WalletLedger.dfy` | every write to a customer's balance, and shops' payouts | `RunLedger`, `RunSolventIff`, `DebitsWithinOpenings` |
| `Recovery.dfy` | the account-recovery cache | `SubmissionChain`, `RunSingleUse`, `TimelyRunSucceeds` |
| `OrderStates.dfy`, `OrderTimers.dfy`, `VerificationLoop.dfy` | transition table, minute job, verification | `UnpaidEndsAtDeadline`, `PreparationWindow`, `Keeps72HoursIff`, `LoopOutcome`, `OwnMovesBounded` |
| `PartialShipping.dfy` | shipping from the assembly cart | `RequestShipping`, `MovesIff`, `ShippedOnce` |
| `Loyalty.dfy`, `CompletionRewards.dfy`, `Referrals.dfy` | rewards, tiers, referral commission and history | `RunCapped`, `StoredExceedsCapIff`, `RewardsFollowLeaving`, `GetReferralHistory` |
| `ShipmentLog.dfy` | the shipment status log | `AllReplayIff` |
| `AuditPages.dfy`, `SalesTrend.dfy`, `Lists.dfy`, `MoneyStates.dfy` | cursor pages, day buckets, sums and groups, shared statuses | `WholeLogOnce`, `TrendConserves`, `GroupTotalsAddUp` |

Tables are sequences or maps in value types; a row's place or key is its id. An operation is a function from state to state, and
the services are classes whose methods are proved equal to it, so that what is proved about runs of the functions holds of the
methods; beside that equality the contracts say from the inputs when a call goes through and which rows it then writes. Stored
money is whole fils, time is milliseconds, a transaction (or a call without one) is one step, and Stripe, the clock and unordered
`findFirst` queries are inputs: any answer they could give is allowed. Loops, hourly and minute jobs and in-place row updates keep
the source's form.

## Where the code differs from what one would expect

- A FROZEN escrow can be refunded but never released (`RunHistory`); a fraud penalty also sits in `frozenBalance`.
- Hold and release go through the offer's store, freeze and refund through the order's, a verdict's release through the case's. Totals
  over all stores are conserved regardless (`LedgerBalanced`); a single store's only through its own (`ShiftIsLocalIff`,
  `StoreBalanced`, `MixedStoresDrift`).
- Nothing writes an order's store (`prisma/schema.prisma:385`), and an order has no price. So no freeze or refund ever goes
  through, the latter after Stripe has paid it, and a refund verdict refunds nothing (`StorelessRun`, `NoPriceNoRefund`).
- A verdict leaves a lock on its case that the next verdict does not look at. It can put paid shipping back to unpaid, and the
  case is debited again (`DebitsWithinOpenings`, `DebitedAgain`).
- A new intent for an offer replaces the old one in its row; a payment of the old one reaches nothing (`WebhookReachesIff`).
- Guarded transitions can be asked for directly. One into NON_MATCHING counts no rejection and sets no deadline, so the
  verification loop then neither ends after five moves nor times out (`OwnMovesBounded`, `CycleRuns`, `TimesOutIff`).
- A phone code is not tied to the number it is sent to (`TimelyRunSucceeds`).
- `prisma/schema.prisma:1060-1061` declares an escrow's payment and order unique, `prisma/migrations/financial_system_manual.sql:25-56`
  creates no such constraint. `Books.uniqueKeys` covers both. With the keys an order gets one escrow, so its second paid offer is
  never fulfilled and an order with two accepted offers is never opened by the webhook (`FulfilledIff`, `OnePaidOffer`, `KeysOpenIff`);
  without them a refunded payment can be fulfilled twice (`RefundedPaidAgain`).
- The PREPARATION gate compares two counts that need not be about the same offers (`GateCounts`, `RejectedAfterPayment`), and it
  ignores the order's status: a late webhook revives a cancelled order (`OpensIff`, `CancelledOrderRevived`).
- `Order.updatedAt` is not maintained by the database (`prisma/schema.prisma:422`). The Stripe webhook and the admin review change the
  status without setting it, so the 48 hours of preparation can start long before PREPARATION does (`Keeps72HoursIff`). The
  delay job prefers a payment with status `COMPLETED`, which nothing writes.
- The transition table (`src/orders/fsm/order-state-machine.service.ts:7-46`) has no edge from PREPARATION to SHIPPED and none from
  VERIFICATION_SUCCESS to SHIPPED or PARTIALLY_SHIPPED, although shipping requests are accepted in both. Such a group fails
  after its offers are flagged (`GroupSucceedsIff`, `WholeCartAtOnce`).
- The feed's type filter also matches the upper-cased type of a wallet row (`TypeFilterMissesWalletPayment`); `hasMore` is false when a
  single table holds all the rows, and always under a filter that wants one table only (`HasMoreIff`, `OneTableNeverHasMore`).
- Fines are taken without looking at the balance, so a customer's balance can go below zero (`RunSolventIff`). Shipping paid through Stripe
  leaves a DEBIT row with `balanceAfter` 0 that is not part of the running balance.
- A PARTNER's cap, a tenth of the month's spend, can end in a fraction of a fil, and storing the last reward then rounds past it
  (`StoredExceedsCapIff`, `CapExceeded`). A cancelled tier comes back with the next rewarded order (`CancelLastsOneGrant`).
- Order rewards have no record of the orders they were paid for, and a shipment marked as delivered writes DELIVERED over any status.
  An order without warranty is rewarded each time it is completed again (`RewardsFollowLeaving`, `RewardedAnyNumber`); one under
  warranty never is (`WarrantyNeverRewarded`).
- A label that has to create its own shipment writes no log row (`AllReplayIff`).

## Model

| member | source | states |
|---|---|---|
| FinancialFeed.TableEvents | src/payments/payments.service.ts:2760-2858 | one event for each row, in its place, and field by field what the row says: amount, type, direction (a wallet row CREDIT exactly if it is a credit; RELEASE, FREEZE or HOLD by escrow status), and date (paid or released, or else created; a withdrawal's last update) |
| FinancialFeed.ServedPage | src/payments/payments.service.ts:2556-2585 | every served event passes the filter and is the fetched row it names field by field; newest settlement first, none twice; only a last page is short, and the total counts the wanted fetched rows |
| FinancialFeed.TruncatedListing | src/payments/payments.service.ts:2511-2576 | fetching the newest `limit + skip` rows of each table gives the full sorted listing with the unfetched rows struck out, for every database and filter |
| FinancialFeed.PageExactIff | src/payments/payments.service.ts:2495-2585 | for every page, limit and filter, the served page is the slice of the full merge if and only if it starts beyond the listing or no row up to its end was left unfetched |
| FinancialFeed.PagesExact | src/payments/payments.service.ts:2511-2578 | without a type filter (none, empty or "ALL") every page is exact when each table's query order agrees with the sort key |
| FinancialFeed.OneSourceFilterExact | src/payments/payments.service.ts:2564-2578 | the same for a type filter that selects exactly one table |
| FinancialFeed.NoFilterIff | src/payments/payments.service.ts:2564-2568 | the filter lets everything through exactly if the parameter is missing, empty or "ALL" |
| FinancialFeed.NameSelects | src/payments/payments.service.ts:2566-2567 | a table's name selects that table's events and the wallet rows of a type spelled like it, nothing else |
| FinancialFeed.NamedTableExact | src/payments/payments.service.ts:2564-2578 | so asking for a table by name gives exact pages unless some wallet row's type is spelled like the name |
| FinancialFeed.WholeFeedOnce | src/payments/payments.service.ts:2511-2585 | when the orders agree, unfiltered pages read one after the other until they cover the rows show every event of the four tables exactly once, newest first |
| FinancialFeed.LateReleaseMissed | src/payments/payments.service.ts:2541-2576 | orders that disagree: an old escrow released last belongs on page one and is not fetched |
| FinancialFeed.TypeFilterMissesWalletPayment | src/payments/payments.service.ts:2564-2568 | the filter "PAYMENT" also selects wallet rows of type `payment`, which truncation can lose even when the orders agree |
| FinancialFeed.HasMoreIff | src/payments/payments.service.ts:2578-2583 | `hasMore` is true exactly when rows exist beyond the page and they are not all in one single table |
| FinancialFeed.HasMoreFilteredIff | src/payments/payments.service.ts:2562-2583 | under any filter `hasMore` is true exactly when the wanted events of the whole database exceed the pages so far by more than the unfetched ones among them |
| FinancialFeed.HasMoreMissedIff | src/payments/payments.service.ts:2562-2583 | so it is never wrong when true, and false although more is wanted exactly when the unfetched events make up the excess |
| FinancialFeed.OneTableNeverHasMore | src/payments/payments.service.ts:2564-2583 | a filter that wants events of one table only never shows more, however many there are |
| StableSort.SortPermutes | src/payments/payments.service.ts:2572-2576 | the sort is a permutation into descending date order |
| StableSort.SortFiltered | src/payments/payments.service.ts:2572-2576 | the sort is stable: it commutes with striking out rows |
| EscrowServices.EscrowService.HoldFunds | src/payments/escrow.service.ts:30-66 | appends the HELD row and moves its merchant share into the store's pending balance, nothing else |
| EscrowServices.EscrowService.ReleaseFunds | src/payments/escrow.service.ts:71-219 | some HELD row of the order is released through the offer's store, with its platform and vendor rows, or one of three failures changes nothing |
| EscrowServices.EscrowService.FreezeFunds | src/payments/escrow.service.ts:221-299 | some HELD row of the order is frozen through the order's store, or nothing changes |
| EscrowServices.EscrowService.ProcessRefund | src/payments/escrow.service.ts:304-419 | some HELD or FROZEN row is refunded out of the balance it was in, with the payment marked, or nothing changes |
| EscrowServices.ReturnsService.ChargeMerchant | src/returns/returns.service.ts:1021-1102 | shipping leaves the store's balance and a fraud penalty adds to its frozen balance, each with its vendor row |
| EscrowServices.ReturnsService.IssueVerdict | src/returns/returns.service.ts:1005-1152 | RELEASE_FUNDS and DENY alike: with a form, a HELD row and a case store exactly that row becomes RELEASED, its share moves from that store's pending balance to its balance and every platform row gains commission and fee; without form or row nothing changes, without the store it fails; a REFUND is rolled back by a failed refund |
| Verdicts.ReturnsService.IssueVerdict | src/returns/returns.service.ts:944-1216 | the whole verdict: when it goes through, and then for each kind the statuses of case and order, the lock, the suspension of a fraudulent store, the label of a return, and for RELEASE_FUNDS and DENY the payout, all from the inputs; otherwise nothing changes |
| Verdicts.VerdictLegalIff | src/returns/returns.service.ts:963-964 | from which statuses the transition table would have allowed what a verdict writes |
| EscrowServices.ViolationsService.DeductFine | src/violations/violations.service.ts:230-288 | a fine leaves the merchant's balance with its row and enters one platform wallet row's fees and revenue, if there is one; no fine changes nothing |
| EscrowLedger.StepWellFormed | src/payments/escrow.service.ts:30-419 | every action keeps the foreign keys, so runs never get stuck on them |
| EscrowLedger.Charges | src/returns/returns.service.ts:1021-1102 | a verdict's charges touch no escrow, payment or order row and no number of stores |
| EscrowLedger.NetRefundShares | src/returns/returns.service.ts:1007-1028 | a refund is between zero and the price; when positive it makes up the price with the two fees and the customer's shipping, and it is zero exactly when those eat the price up |
| EscrowLedger.ShippingChargedOnce | src/returns/returns.service.ts:1024-1055 | shipping charged to the merchant does not come off the refund, and never both |
| EscrowMoves.ReleaseWrites | src/payments/escrow.service.ts:71-219 | a release goes through exactly if a row was found, the offer's store has an account and the transfer succeeds; then that row alone is RELEASED, its share moves from pending to balance, every platform row gains commission and fee, the payment is marked and one payout row shows the share and the balance after |
| EscrowMoves.FreezeWrites | src/payments/escrow.service.ts:221-299 | a freeze goes through exactly if a row was found and its order has a store; then that row alone is FROZEN and its share moves from pending to frozen |
| EscrowMoves.RefundWrites | src/payments/escrow.service.ts:304-419 | a refund goes through exactly with a row, a Stripe payment, Stripe's consent and an order with a store; then that row alone is REFUNDED, its share leaves the balance it was in and the payment shows the amount |
| EscrowMoves.ReleasingVerdictIff | src/returns/returns.service.ts:1119-1148 | a RELEASE_FUNDS or DENY verdict writes something if and only if it has a form, a HELD row and a case store, and it writes exactly that payout, with no row and no mark on the payment |
| EscrowMoves.RefundVerdictWrites | src/returns/returns.service.ts:1005-1117 | a REFUND verdict goes through exactly if its charges find a store and, when the fees leave something of the price, a refund is possible; then shipping and penalty leave the case store, the share leaves the order's store, and every other row stays |
| EscrowMoves.ChargesWrite | src/returns/returns.service.ts:1027-1102 | shipping comes off the case store's balance under the merchant's fault, a fraud adds the penalty (50 000 AED if the form names none) to its frozen balance, each with its row |
| EscrowMoves.OpenPercentages | src/returns/returns.service.ts:1006-1014 | percentages left open or zero keep 4.5 % of the price |
| EscrowMoves.FineWrites | src/violations/violations.service.ts:230-288 | a fine leaves one store's balance under its row and enters one platform row as fee, revenue and fine; no other row changes |
| EscrowInvariants.StepConserves | src/payments/escrow.service.ts:34-392 | hold, release, freeze, refund, verdict, fine and payment from the balance each keep every gap between a balance and the rows that account for it |
| EscrowInvariants.RunConserves | src/payments/escrow.service.ts:34-392 | the same over any run |
| EscrowInvariants.LedgerBalanced | src/payments/escrow.service.ts:114-141 | from an opening ledger, over any run: pending = HELD shares, frozen = FROZEN shares + penalties, balance = RELEASED shares - the rows for shipping, fines, withdrawals and payouts, and every platform wallet row holds the commissions and fees of the RELEASED escrows, its fines, and their sum |
| EscrowStores.ShiftDrift | src/payments/escrow.service.ts:230-246 | a move through store k shifts k's gap one way and the gap of the escrow's own store the other way, by exactly the merchant share |
| EscrowStores.ShiftIsLocalIff | src/payments/escrow.service.ts:353 | a move keeps the books of every store if and only if it goes through the escrow's own store or moves nothing |
| EscrowStores.StepConservesAt | src/returns/returns.service.ts:1137 | unless it holds for an order that names another store or releases by verdict on another store's case, every action keeps every single store's gaps |
| EscrowStores.StepAgreed | src/payments/escrow.service.ts:90 | that no escrow's order names another store than its offer's survives each such action |
| EscrowStores.RunConservesAt | src/payments/escrow.service.ts:30-419 | store by store conservation over any run of such actions |
| EscrowStores.StoreBalanced | src/payments/escrow.service.ts:34-392 | from an opening ledger, over any such run: each store's three balances are exactly the sums of its own escrows and rows |
| EscrowStores.StorelessNeverRefunds | src/payments/escrow.service.ts:240-355 | an order without a store, as the program leaves every order, is never frozen or refunded, and a refund that Stripe has paid ends in the failure |
| EscrowStores.StorelessRun | prisma/schema.prisma:385 | so over any run with such orders every escrow is held until it is released |
| EscrowStores.NoPriceNoRefund | src/returns/returns.service.ts:1012-1028 | with the price 0 an order row yields, a refund verdict refunds nothing and asks for no escrow; it only charges the merchant |
| EscrowStores.MixedStoresDrift | src/returns/returns.service.ts:1120-1141 | a run: 100 held for one store, then a denied case of another store about that order; the first keeps pending 100, the second is paid 100 out of pending -100 |
| EscrowHistory.StepEvolves | src/payments/escrow.service.ts:73-325 | rows move only HELD to anything and FROZEN to REFUNDED, keep all other fields, and are never deleted; a hold appends exactly its row; no action rewrites orders or the store of a payment |
| EscrowHistory.ReleasePaysOne | src/payments/escrow.service.ts:143-160 | a release that goes through writes one payout row, for the escrow it released; any other writes none |
| EscrowHistory.VerdictAddsNoPayout | src/returns/returns.service.ts:1119-1152 | a verdict writes no payout row, also when it releases |
| EscrowHistory.StepPaysOnce | src/payments/escrow.service.ts:72-160 | every action keeps: at most one payout row per escrow, and none before it is RELEASED |
| EscrowHistory.RunHistory | src/payments/escrow.service.ts:71-325 | over any run RELEASED and REFUNDED are final, FROZEN is never released, and no escrow pays out twice |
| AutoRelease.EscrowCronService.HandleAutoRelease | src/scheduler/escrow-cron.service.ts:18-43 | the job never stops on "no HELD escrow"; when it ends normally the released rows are exactly the HELD rows of orders completed and last updated 24 hours ago or earlier; it ends normally if every such row is payable; each release has one payout |
| AutoRelease.EscrowCronService.HandleRow | src/scheduler/escrow-cron.service.ts:25-38 | one row of the snapshot keeps the loop's invariant or stops the job with nothing changed and some due row not payable |
| AutoRelease.SnapshotCounts | src/scheduler/escrow-cron.service.ts:20-25 | the snapshot holds as many rows of an order as the table has HELD rows of it |
| AutoRelease.NeverEmpty | src/payments/escrow.service.ts:72-80 | while a row of a due order is still ahead in the snapshot, the table still has a HELD row of that order |
| AutoRelease.ReleaseCounted | src/scheduler/escrow-cron.service.ts:25-38 | releasing any HELD row of the order keeps the count per order equal to what is left of the snapshot |
| AutoRelease.ReleaseStep | src/scheduler/escrow-cron.service.ts:32-38 | one iteration: a row is found, and it is released with everything kept, or it was not payable at the start |
| AutoRelease.OneMoreRelease | src/payments/escrow.service.ts:114-160 | one release adds one released row and one payout to what the job has done |
| AutoRelease.Drained | src/scheduler/escrow-cron.service.ts:25-38 | a snapshot read to its end leaves no HELD row of a due order |
| Fulfilment.Commission | src/payments/payments.service.ts:345-360 | whole dirhams nearest to a quarter of the price, a half counting up; 100 AED below 400 and nothing exactly on a free part |
| Fulfilment.PaymentsService.CreatePaymentIntent | src/payments/payments.service.ts:308-428 | goes through exactly for the owner of a payable order and an accepted, unpaid offer of it; then the offer's one row is PENDING under the new intent with the offer's price, shipping, a quarter as commission and their sum, and nothing else changes |
| Fulfilment.PaymentsService.FulfillStripePayment | src/payments/payments.service.ts:569-736 | status, escrow, credit, invoice and gate in one transaction, every amount taken from the payment row; skipped if SUCCESS, refused on a wrong amount or a taken key |
| Fulfilment.PaymentsService.HandlePaymentFailure | src/payments/payments.service.ts:785-799 | only a PENDING row fails |
| Fulfilment.PaymentsService.FindByIntent | src/payments/payments.service.ts:571-576 | any row carrying the intent, or none when there is none |
| Fulfilment.StepSound | src/payments/payments.service.ts:607-685 | intents, success and failure webhooks, refunds, offer decisions and order moves keep: one fulfilment per time a payment became SUCCESS, aligned records, priced rows |
| Fulfilment.RunSound | src/payments/payments.service.ts:335-413 | the same over any run, in any order and repetition |
| Fulfilment.ExactlyOnce | src/payments/payments.service.ts:607-685 | a never-refunded payment has exactly one escrow, invoice and credit if SUCCESS and none otherwise; with the unique keys enforced never more than one; the four escrow parts sum to the invoice and a record carries the row's total |
| Fulfilment.RefundedPaidAgain | src/payments/payments.service.ts:614 | without those keys a refunded payment can be paid and fulfilled again |
| Fulfilment.StepBilled | src/payments/payments.service.ts:323-413 | every action keeps: each payment and escrow row is for an offer and carries that offer's order, price, shipping and a quarter of the price |
| Fulfilment.BilledAsOffered | src/payments/payments.service.ts:345-685 | over any run each invoice shows its offer's prices and a quarter as commission and totals the three; the store is credited the price and the escrow holds the same parts |
| Fulfilment.GateCounts | src/payments/payments.service.ts:687-701 | the PREPARATION test holds exactly when the unpaid accepted offers are no more than the paid offers no longer accepted |
| Fulfilment.GateIsAllPaid | src/payments/payments.service.ts:687-701 | with paid offers still accepted, the test means every accepted offer is paid |
| Fulfilment.MockGateIsAllPaid | src/payments/payments.service.ts:189-198 | the form that counts among accepted offers means it without that proviso |
| Fulfilment.GatesDifferIff | src/payments/payments.service.ts:687-701 | exactly when the two forms differ |
| Fulfilment.RunPayersAccepted | src/payments/payments.service.ts:323-334 | over runs that reject no offer with a payment row, every payment row belongs to an accepted offer of its own order |
| Fulfilment.PreparationMeansAllPaid | src/payments/payments.service.ts:687-706 | in such runs a fulfilment opens PREPARATION exactly when no accepted offer is left unpaid |
| Fulfilment.FulfilledIff | src/payments/payments.service.ts:578-660 | a success webhook fulfils exactly when the amount is right, the row is not SUCCESS and, under the unique keys, neither its payment nor its order has an escrow; otherwise it changes nothing |
| Fulfilment.RowsCarryLastIntents | src/payments/payments.service.ts:371-413 | over any run a payment row carries the last intent created for its offer, and there is a row exactly if there was one |
| Fulfilment.WebhookReachesIff | src/payments/payments.service.ts:569-576 | a success webhook reaches a payment exactly if its intent is the last one of some offer; any other changes nothing though the customer has paid |
| Fulfilment.ReachedIsPaid | src/payments/payments.service.ts:578-660 | at least once: a webhook that reaches a payment with the right amount leaves it SUCCESS unless the unique keys refuse its escrow |
| Fulfilment.ReplacedIntentLost | src/payments/payments.service.ts:382-393 | a second intent for an unpaid offer makes the first one's webhook useless |
| Fulfilment.StepFiled | prisma/schema.prisma:1060-1061 | every action keeps each escrow under its payment's order and, under the keys, at most one escrow per order |
| Fulfilment.RunFiled | prisma/schema.prisma:1060-1061 | the same over any run from fresh books |
| Fulfilment.OnePaidOffer | prisma/schema.prisma:1060-1061 | so under the keys an order never has two paid offers |
| Fulfilment.KeysOpenIff | src/payments/payments.service.ts:687-706 | under the keys a fulfilment opens its order exactly when the order has at most one accepted offer |
| Fulfilment.OpensIff | src/payments/payments.service.ts:697-706 | from any status, CANCELLED included, exactly when a webhook moves its order to PREPARATION |
| Fulfilment.CancelledOrderRevived | src/payments/payments.service.ts:703-706 | a run: intent, cancellation, webhook; the cancelled order is in PREPARATION, where the table has no edge |
| Fulfilment.RejectedAfterPayment | src/orders/orders.service.ts:995-1054 | a run: of three accepted offers the first is paid and rejected, then the second is paid; that fulfilment opens PREPARATION with the third unpaid |
| WalletLedger.WalletService.CreditReward | src/loyalty/loyalty.service.ts:233-268 | balance and row of an order reward, without a row when it is zero; a referral reward likewise |
| WalletLedger.WalletService.ProcessWithdrawalRequest | src/payments/payments.service.ts:1971-2115 | customers and shops: a rejection marks the pending request and nothing else; an approval needs the balance and a payout by the overriding method or else the request's, debits, writes its row and stores the method; every refusal changes nothing |
| WalletLedger.CardShippingWrites | src/payments/payments.service.ts:904-930 | shipping paid by card moves no balance; its row says DEBIT with a balance of 0, and the case is paid |
| WalletLedger.WalletService.SendManualPayout | src/payments/payments.service.ts:2387-2455 | customers and shops: goes through exactly if the balance covers it and a Stripe transfer, if asked for, succeeds; then one debit and its row; a user without a wallet gets none |
| WalletLedger.WalletService.DeductShippingFromBalance | src/returns/returns.service.ts:1867-1933 | goes through exactly for the customer, or the owner of the store at fault, with an unpaid priced case and a balance that covers it; then one debit, its row and the paid mark |
| WalletLedger.StepLedgered | src/payments/payments.service.ts:1987-2047 | every operation keeps each customer's balance = start + credits - debits and each row's `balanceAfter` = running balance |
| WalletLedger.WalletService.IssueVerdict | src/returns/returns.service.ts:1005-1168 | the shipping part of a verdict: when the store is charged, what the case then asks for, who pays it and when it counts as paid, on a case judged before or not |
| WalletLedger.StepRequestsDebitedOnce | src/payments/payments.service.ts:1975-2047 | every operation keeps: a withdrawal request has one debit row exactly if COMPLETED and none otherwise |
| WalletLedger.StepSlack | src/returns/returns.service.ts:1156-1168 | no operation adds more wallet debits of a case, with the one it is open for, than openings of it |
| WalletLedger.StepOpens | src/returns/returns.service.ts:1156-1168 | an opening of a case is counted exactly when an operation leaves it unpaid that was not before |
| WalletLedger.DebitsWithinOpenings | src/returns/returns.service.ts:1874-1929 | over any run the wallet debits of a case never exceed the times it was put to unpaid |
| WalletLedger.ReopenedBetween | src/returns/returns.service.ts:1156-1168 | between two wallet debits of a case a verdict put it back to unpaid |
| WalletLedger.OnlyVerdictsReopen | src/returns/returns.service.ts:1156-1168 | a paid case becomes unpaid by such a verdict and by nothing else |
| WalletLedger.ReopensIff | src/returns/returns.service.ts:1156-1168 | exactly which verdicts that charge no store reopen a paid case |
| WalletLedger.DebitedAgain | src/returns/returns.service.ts:1874-1929 | a run: paid, judged again, paid again |
| WalletLedger.StepSolvent | src/violations/violations.service.ts:230-262 | a step from solvency stays solvent if and only if it is no fine, verdict's charge or move from elsewhere larger than the balance |
| WalletLedger.RunSolventIff | src/violations/violations.service.ts:230-262 | every state of a run is solvent if and only if each fine, verdict's charge and outside move of a store's balance is covered at its time |
| WalletLedger.RunLedger | src/payments/payments.service.ts:2406-2437 | the customers' ledger and one debit per completed request, over any run of rewards, withdrawals, payouts, shipping payments, verdicts, fines and outside moves |
| Recovery.RecoveryService.RequestEmailOtp | src/auth/recovery.service.ts:24-63 | a known user's email code for ten minutes, over any earlier one |
| Recovery.RecoveryService.VerifyEmailOtp | src/auth/recovery.service.ts:65-92 | expired, blocked after five wrong guesses, counted as wrong, or traded for a fifteen-minute session, each from the cached entry |
| Recovery.RecoveryService.RequestPhoneOtp | src/auth/recovery.service.ts:94-111 | a phone code to the number given, for a live session only |
| Recovery.RecoveryService.SubmitRecovery | src/auth/recovery.service.ts:113-276 | lets through exactly a known user with a session and the right live phone code of fewer than five wrong guesses; it is queued with the phone unchanged exactly if the account has money, active orders or open cases, and otherwise gets the phone and a 12 h freeze; both clear session and code |
| Recovery.StepInv | src/auth/recovery.service.ts:34-129 | each call keeps: every success is caused by an earlier one in time, every cache entry was written by a logged event and has at most five wrong guesses |
| Recovery.RunInv | src/auth/recovery.service.ts:24-276 | the same over any chronological list of calls |
| Recovery.SubmissionChain | src/auth/recovery.service.ts:114-129 | a submission at T yields email code r, verification v and phone code p of the same role and email, in order, with v-r <= 10 min, p-v <= 15 min, T-p <= 10 min |
| Recovery.AttemptsBounded | src/auth/recovery.service.ts:73-82 | no code collects more than five wrong guesses |
| Recovery.RunSingleUse | src/auth/recovery.service.ts:209-210 | per account: submissions never outnumber verifications or phone codes, verifications never outnumber email codes |
| Recovery.TimelyRunSucceeds | src/auth/recovery.service.ts:66-129 | a client inside the three limits is let through, whatever came before, whatever other accounts do in between, and whether or not the submission asks for the number the code was sent to |
| Recovery.OthersKeep | src/auth/recovery.service.ts:22-276 | calls for other accounts leave an account's entries alone |
| OrderTimers.OrderCleanupService.RunJob | src/scheduler/order-cleanup.service.ts:284-326 | a job applies its rule to each row once and to no other row |
| OrderTimers.OrderCleanupService.HandleCron | src/scheduler/order-cleanup.service.ts:24-33 | the seven jobs in sequence do to every order exactly one tick; of the unpaid orders it cancels exactly those past their payment deadline or, without one, 24 h after their last update |
| OrderTimers.SevenJobsAreOneTick | src/scheduler/order-cleanup.service.ts:24-33 | the composition of the seven guarded jobs equals the one-case tick, including the one order two jobs touch |
| OrderTimers.UnselectedPhases | src/scheduler/order-cleanup.service.ts:227-312 | where an untouched order is after any run of ticks, and that its deadline is less than 48 h plus one gap |
| OrderTimers.UnselectedWindow | src/orders/orders.service.ts:80-83 | the tick that cancels an unselected order falls strictly between 48 h and 48 h plus two tick gaps |
| OrderTimers.UnselectedEnds | src/scheduler/order-cleanup.service.ts:288-312 | from 48 h plus one gap on, it is cancelled |
| OrderTimers.PreparationPhases | src/scheduler/order-cleanup.service.ts:414-521 | where an unprepared order is after any run of ticks |
| OrderTimers.PreparationWindow | src/scheduler/order-cleanup.service.ts:414-459 | it is cancelled 24 h after the later of entry and `updatedAt` + 48 h, within two gaps |
| OrderTimers.PreparationEnds | src/scheduler/order-cleanup.service.ts:499-521 | and it is cancelled by then |
| OrderTimers.Keeps72HoursIff | src/payments/payments.service.ts:703-706 | every run leaves 72 h from entry if and only if `updatedAt` is at most a millisecond older than the entry; the webhook does not set it |
| OrderTimers.CutShort | src/scheduler/order-cleanup.service.ts:433-447 | for every older clock, ticks that cancel within the 72 h |
| OrderTimers.CorrectionEndsAt48Hours | src/scheduler/order-cleanup.service.ts:584-633 | an uncorrected order is cancelled by the first tick after 48 h and by none before |
| OrderTimers.CorrectionStarts | src/scheduler/order-cleanup.service.ts:584-609 | a rejected order enters its correction period by the first tick later than two minutes after its last update |
| OrderTimers.UnpaidEndsAtDeadline | src/scheduler/order-cleanup.service.ts:330-363 | over any ordered ticks an unpaid order is cancelled by the first one after its payment deadline, or 24 h after its last update if it has none, and by none before |
| OrderTimers.WaitEndsAtDeadline | src/scheduler/order-cleanup.service.ts:284-633 | the waits for selection, delayed preparation and correction end at the first tick after their deadline, and never if none is set |
| OrderTimers.OthersAreLeftAlone | src/scheduler/order-cleanup.service.ts:24-33 | no run of ticks touches an order in any other status |
| VerificationLoop.VerificationService.SubmitVerificationDocument | src/orders/orders.service.ts:1680-1749 | goes through exactly for an owner from PREPARED; files a document, changes nothing else; keeps the loop and decreases its measure |
| VerificationLoop.VerificationService.AdminReviewVerification | src/orders/orders.service.ts:1775-1829 | goes through exactly in the two reviewable statuses with a document; an approval ends in VERIFICATION_SUCCESS, clears the deadline and keeps the count; a rejection counts one and sets 48 h, the second cancels; inside the loop a document is never lacking and the measure decreases |
| VerificationLoop.VerificationService.SubmitCorrectionVerification | src/orders/orders.service.ts:1902-1959 | goes through exactly for an owner while a correction is awaited, whatever the deadline; files a document, changes nothing else; the measure decreases |
| VerificationLoop.StepDecreases | src/orders/orders.service.ts:1781-1829 | every own call or tick that moves the order decreases (rejections left, stages left); the second rejection and only it cancels in review |
| VerificationLoop.StepBehind | src/orders/orders.service.ts:1692-1959 | each move adds at most what the state reached allows to lie behind it |
| VerificationLoop.LoopEnds | src/orders/orders.service.ts:1692-1959 | from PREPARED, under any of the loop's own calls and ticks: at most five moves, two reviews, one correction; a deadline is set whenever a correction is awaited |
| VerificationLoop.LoopOutcome | src/orders/orders.service.ts:1692-1959 | from PREPARED, under any of its own moves: VERIFICATION_SUCCESS exactly if a review approved it, CANCELLED exactly by a second rejection or a timeout after one; the count is the number of rejecting reviews and a correction is awaited until 48 h after the rejection |
| VerificationLoop.StepEnds | src/orders/orders.service.ts:1781-1829 | one move: what approves, what counts as rejection, what cancels, and which deadline is left |
| VerificationLoop.OwnMovesBounded | src/orders/orders.controller.ts:85-105 | from any state, with any transitions asked for directly and anything written into the row: at most six own moves for each such intervention, and those the start allows |
| VerificationLoop.CycleRuns | src/orders/fsm/order-state-machine.service.ts:7-23 | the table has a cycle: n rejections by direct transition let the loop make n corrections and be where it was |
| VerificationLoop.TimesOutIff | src/scheduler/order-cleanup.service.ts:611-633 | an order awaiting a correction is ever timed out exactly if its deadline is set |
| VerificationLoop.RequestedRejectionStays | src/orders/orders.controller.ts:85-105 | a first rejection by direct transition counts none, sets no deadline and is never timed out |
| VerificationLoop.RejectionTimesOut | src/scheduler/order-cleanup.service.ts:587-633 | a first rejection left alone is cancelled by the first tick after 48 h and by none before |
| PartialShipping.OrdersService.RequestShipping | src/orders/orders.service.ts:1503-1632 | the request flags exactly the accepted, unflagged offers asked for, of this customer, in PREPARATION, PARTIALLY_SHIPPED or VERIFICATION_SUCCESS, whose shipment could be made, each on a shipment of its order; the count is the offers in groups that did not fail, one result per order |
| PartialShipping.OrdersService.GroupByOrder | src/orders/orders.service.ts:1552-1557 | each group is exactly what the list holds of its order, in the list's order |
| PartialShipping.OrdersService.ShipGroup | src/orders/orders.service.ts:1558-1625 | one group: shipment, flags, then the guarded transition; a failure after the flags keeps them |
| PartialShipping.OrdersService.ShipNext | src/orders/orders.service.ts:1559-1628 | one iteration: batch, count and results advance by one group |
| PartialShipping.OrdersService.MakeShipment | src/shipments/shipments.service.ts:53-79 | the order's shipment without a waybill, found or made; no shipment lost or changed |
| PartialShipping.OrdersService.TransitionStatus | src/orders/orders.service.ts:442-482 | a transition goes through exactly along an edge of the table, stamps the time, and turns completion under warranty into WARRANTY_ACTIVE; otherwise nothing changes |
| PartialShipping.GroupAdded | src/orders/orders.service.ts:1552-1557 | one more offer extends the group of its order, or opens it, and changes no other group |
| PartialShipping.Compose | src/orders/orders.service.ts:1558-1562 | shipping groups one after another is shipping their union at once |
| PartialShipping.ProgressStep | src/orders/orders.service.ts:1558-1628 | one more group keeps batch, count and results in step |
| PartialShipping.ResultsCover | src/orders/orders.service.ts:1624-1628 | the results name every order of the batch once and no other |
| PartialShipping.ShippedOnce | src/orders/orders.service.ts:1531-1534 | over any run no offer is shipped by two calls, and no later call changes the shipment it is on |
| PartialShipping.ShippedForGood | src/orders/orders.service.ts:1566-1573 | the call that ships an offer puts it on a shipment of its order, which it stays on and which stays one of that order |
| PartialShipping.FlaggedIffShipped | src/orders/orders.service.ts:1531-1573 | an offer that began unflagged ends flagged exactly when some call of the run shipped it |
| PartialShipping.ShippedMeansAll | src/orders/orders.service.ts:1576-1597 | a call that moves an order moves it to SHIPPED exactly when no accepted offer of it is left unshipped, else to PARTIALLY_SHIPPED |
| PartialShipping.MovesIff | src/orders/orders.service.ts:1576-1613 | a request moves an order exactly if it flags some offer of it and it was in PREPARATION with something left, or PARTIALLY_SHIPPED with nothing left |
| PartialShipping.GroupSucceedsIff | src/orders/fsm/order-state-machine.service.ts:7-46 | under the transition table a group gets through exactly from PARTIALLY_SHIPPED, or from PREPARATION with something left behind |
| PartialShipping.WholeCartAtOnce | src/orders/orders.service.ts:1584-1592 | shipping a whole cart from PREPARATION flags every offer and still counts nothing and moves no order |
| Loyalty.LoyaltyService.GrantOrderCompletionRewards | src/loyalty/loyalty.service.ts:114-265 | for a completed order without disputes and returns that earned a commission: a point per dirham of commission, its total to the spend and with it the tier, and the one reward its tier, cap and month allow, stored with its row; the store's earnings and count; otherwise nothing |
| Loyalty.LoyaltyService.CancelAllRewards | src/loyalty/loyalty.service.ts:36-57 | points 0 and tier BASIC; balance, profit rows and spend as before; the old points and tier are returned |
| Loyalty.RunCapped | src/loyalty/loyalty.service.ts:176-222 | over any run of grants and cancellations, a month's ORDER_PROFIT never exceeds the largest cap in force at one of its grants, rounded to whole fils |
| Loyalty.EarnedIsClampOrRemainder | src/loyalty/loyalty.service.ts:167-222 | a positive reward is the 2..150 clamp or the exact remainder to the cap; zero exactly at the cap |
| Loyalty.EarnedIsReward | src/loyalty/loyalty.service.ts:155-222 | the reward fits under what the cap leaves (2000 AED, VIP 5000, PARTNER 5000 or a tenth of the month) and under 150 AED; below both it is 2 AED or the tier's share of the commission, whichever is more |
| Loyalty.RewardUnique | src/loyalty/loyalty.service.ts:155-222 | only one amount is such a reward |
| Loyalty.StoredExceedsCapIff | src/loyalty/loyalty.service.ts:183-190 | exactly when rounding to two decimals carries a month past its cap: only with a PARTNER cap ending in half a fil or more |
| Loyalty.CapExceeded | src/loyalty/loyalty.service.ts:189-222 | a PARTNER with a cap of 5000.006 is paid up to 5000.01 |
| Loyalty.RunKeepsTier | src/loyalty/loyalty.service.ts:228-240 | without cancellations tier = calculateTier(totalSpent) and never falls |
| Loyalty.ApplyKeepsTier | src/loyalty/loyalty.service.ts:523-534 | the same for one step, and the spend never falls |
| Loyalty.TierCountsThresholds | src/loyalty/loyalty.service.ts:523-529 | a tier is the number of thresholds the spend has reached |
| Loyalty.HigherTierEarnsNoLess | src/loyalty/loyalty.service.ts:155-171 | the same order never earns less on a higher tier, and past the minimum never more than six per cent of its commission |
| Loyalty.CancelLowersIff | src/loyalty/loyalty.service.ts:48-57 | a cancellation lowers the tier exactly when the spend had earned one |
| Loyalty.CancelLastsOneGrant | src/loyalty/loyalty.service.ts:228-240 | the next rewarded order gives back the tier of the run without any cancellation |
| Loyalty.RunBalances | src/loyalty/loyalty.service.ts:241-265 | the balance moves by exactly the profit rows |
| Loyalty.PartnerCapIff | src/loyalty/loyalty.service.ts:176-190 | a PARTNER's cap is at least a VIP's and exceeds 5000 exactly when the month's completed orders exceed 50000 |
| Loyalty.StoresCount | src/loyalty/loyalty.service.ts:293-302 | a store's lifetime earnings and completed orders are those of the rewarded orders that name it |
| CompletionRewards.RewardsFollowLeaving | src/orders/orders.service.ts:543-552 | over any mix of guarded transitions and writes past the table: rewards, with completions written past the trigger, equal the times the order left COMPLETED and one more while it is COMPLETED |
| CompletionRewards.WarrantyNeverRewarded | src/orders/orders.service.ts:474-476 | an order under warranty is never rewarded, and every time it is COMPLETED that was written past the table |
| CompletionRewards.RewardedAnyNumber | src/shipments/shipments.service.ts:168-196 | completions and further shipments marked as delivered alone reward the one order any number of times |
| CompletionRewards.WrittenLegalIff | src/shipments/shipments.service.ts:168-196 | which shipment statuses write the order, and from which order statuses the table would have allowed it |
| Referrals.LoyaltyService.ProcessReferralReward | src/loyalty/loyalty.service.ts:318-420 | pays exactly for a clean completed order of a referred customer within 180 days that has not paid yet and is worth a fil: the nearest whole fil to one per cent, on balance, points and one credit; every other trigger changes nothing |
| Referrals.RunOnePerOrder | src/loyalty/loyalty.service.ts:364-420 | any triggers leave at most one REFERRAL_PROFIT row per referrer and order |
| Referrals.PaidOrdersAreSettled | src/loyalty/loyalty.service.ts:364-375 | once an order has paid, no later trigger for it changes anything |
| Referrals.RunBalances | src/loyalty/loyalty.service.ts:388-395 | balances and points move by exactly the credits |
| Referrals.LoyaltyService.GetReferralHistory | src/loyalty/loyalty.service.ts:574-660 | one pass gives every referee the sum, count and latest date of the credits naming it, and the totals are all the credits that name a listed referee |
| Referrals.SummaryStep | src/loyalty/loyalty.service.ts:611-620 | one credit changes the summary of the referee it names and no other |
| Referrals.EarningsAreGroups | src/loyalty/loyalty.service.ts:650-655 | earnings over referees = credits with a listed referee |
| Referrals.ActiveMeansPaying | src/loyalty/loyalty.service.ts:623-632 | active means days remain; a clean order pays while active and at the very instant of expiry |
| ShipmentLog.ShipmentsService.CreateShipment | src/shipments/shipments.service.ts:53-106 | the shipment of that order and waybill: the existing one, or a new one with its first log row |
| ShipmentLog.ShipmentsService.UpdateShipmentStatus | src/shipments/shipments.service.ts:108-149 | status and log row together |
| ShipmentLog.ReturnsService.GenerateReturnWaybill | src/returns/returns.service.ts:1791-1853 | the label goes on the newest shipment of the part, or of the order if the part has none, with a log row from its old status; for an order without shipments on a new one without a log row |
| ShipmentLog.ReturnsService.BeginReturn | src/returns/returns.service.ts:1936-1956 | the order's newest shipment moves to RETURN_STARTED with a log row from its old status; Stripe payments do the same |
| ShipmentLog.RunSound | src/payments/payments.service.ts:931-951 | over any run each shipment's rows are a connected chain from its birth to its status |
| ShipmentLog.ReplaysIff | src/returns/returns.service.ts:1846-1852 | a shipment's log replays from null to its status exactly when no label had to create it |
| ShipmentLog.AllReplayIff | src/returns/returns.service.ts:1822-1852 | all logs replay exactly when each label was issued for an order that already had a shipment |
| ShipmentLog.NoTargetIff | src/returns/returns.service.ts:1791-1846 | a label has no shipment to go on exactly when its order has none, and never touches another order's |
| ShipmentLog.ApplyKeepsOrders | src/shipments/shipments.service.ts:56-149 | no operation removes a shipment or moves it to another order |
| ShipmentLog.CreateMakes | src/shipments/shipments.service.ts:56-79 | after a create the shipment of that order and waybill is there, and no other has changed |
| ShipmentLog.CreateOnce | src/shipments/shipments.service.ts:56-65 | a repeated create changes nothing |
| AuditPages.AuditLogsService.FindAll | src/audit-logs/audit-logs.service.ts:62-87 | the page behind the cursor; a limit of 0 fails on a log with rows |
| AuditPages.LaterRowInFront | src/audit-logs/audit-logs.service.ts:64 | ordered newest first, a row written later than all others comes before them and leaves them as they were |
| AuditPages.BehindGrows | src/audit-logs/audit-logs.service.ts:68-71 | rows arriving in front change nothing behind a cursor |
| AuditPages.NextCall | src/audit-logs/audit-logs.service.ts:82-86 | the next call finds exactly the rows this page left |
| AuditPages.FollowChops | src/audit-logs/audit-logs.service.ts:62-87 | pages followed from any cursor of a growing log are the rows behind it, cut into pages |
| AuditPages.ChopJoins | src/audit-logs/audit-logs.service.ts:62-87 | pages join to all the rows they were cut from |
| AuditPages.ChopCounts | src/audit-logs/audit-logs.service.ts:62-87 | and are as many as max(1, ceil(n/limit)) |
| AuditPages.WholeLogOnce | src/audit-logs/audit-logs.service.ts:62-87 | following `nextCursor` to the end returns every row of the log once and in order in max(1, ceil(n/limit)) calls, also while newer rows keep arriving |
| SalesTrend.DashboardService.GetSalesTrend | src/dashboard/dashboard.service.ts:85-160 | consecutive days from the start, each with what was paid on it, summing to totalSales |
| SalesTrend.DashboardService.MakeBuckets | src/dashboard/dashboard.service.ts:144-149 | the 24 h loop makes one empty bucket per UTC day |
| SalesTrend.DashboardService.Fill | src/dashboard/dashboard.service.ts:151-156 | each payment adds to the bucket of its day alone |
| SalesTrend.TrendConserves | src/dashboard/dashboard.service.ts:137-160 | the trend sums to the total sales for every start and end |
| SalesTrend.TotalSalesCounts | src/dashboard/dashboard.service.ts:85-140 | a payment counts exactly if it succeeded within the range, both ends included |
| SalesTrend.EveryPaymentHasBucket | src/dashboard/dashboard.service.ts:151-156 | no payment of the range misses the map |
| SalesTrend.LastBucket | src/dashboard/dashboard.service.ts:145-149 | the last bucket is the end's day, or one day later exactly when the start has the earlier clock time |
| Lists.GroupTotalsAddUp | src/dashboard/dashboard.service.ts:151-156 | totals of distinct groups add up to the rows in one of them |

## Left out

- Notifications, audit texts, websocket gateways, chat, uploads, Excel export, tokens and controllers: no state of their own worth a property.
- Stripe: only that a call succeeds or fails; nothing is claimed about cash held there, nor about transfers against the withdrawable balance.
- The mock card path apart from its gate; vendor wallet totals; the limits, freezes and bank details checked when a withdrawal is requested.
- Races between a read and the transaction after it: each call is one step.
- Floating point: amounts are exact, rounded where the database stores two decimals; a half-fil tie on a negative balance rounds up here.
- NetRefund: `price` is whatever the order row yields (`src/returns/returns.service.ts:1012`), and the amount stays an exact real.
- Verdicts.ReturnsService.IssueVerdict: does not model the owner's suspension and withdrawal freeze, nor the text on the case.
- EscrowInvariants.LedgerBalanced: does not count vendor rows that move no balance: the credit of a fulfilment and shipping paid by card.
- WalletLedger: a shop's rows are not tied to its balance, which releases and verdicts move as well; those moves are inputs here.
- Fulfilment.BilledAsOffered: offers keep their prices here; editing an offer while bids are open is not part of this model.
- VerificationLoop: the field officers' verification tasks are no moves of the loop here; what they write is covered as an intervention.
- OrderTimers: the hourly jobs (assembly cart, completion of delivered orders), a job's failure half way, and time-zone changes in `setHours` (24 hours are 24 hours).
- Recovery: cache keys are taken as distinct for distinct role, email and step; what an account has at stake is an input of the submission.
- PartialShipping: JavaScript's key order of the groups is the order of first appearance, as it is for UUID keys.
- Loyalty: the store's performance tier, recomputed by another service after a reward.
- CompletionRewards: which service makes a write past the table; any status may be written at any time.
- Referrals: names and formatted dates of the history.
- AuditPages: negative limits, which make Prisma read backwards; rows with equal timestamps are taken to come in one fixed order.
- SalesTrend: years outside 0-9999, for which dates would not sort as text; the top-stores list, which groups as the referral history does.
- FinancialFeed: date and search filters select the rows before the model starts; case mapping is that of ASCII letters.
- Default cards, violation decay, merchant tiers, offer limits, review averages: short computations that would add only easy members.
