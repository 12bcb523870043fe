# Money movement: proofs

A Dafny model of how LumaLine moves money: the advertiser charge run, publisher payouts, prepay
credit, deposits and their webhooks, refunds and clawbacks. Each protocol is a state machine over
its database tables and what Stripe remembers; a run may stop after any remote call, a call may not
arrive or lose its answer, and between any two calls time passes, groups clear, advertisers change
billing mode, webhooks arrive and publishers onboard.

`dafny verify dfyconfig.toml` checks everything.

## How it is laid out

| files | what they hold |
|---|---|
| `Basics.dfy` | optional values, cents and micros |
| `ChargeProtocol.dfy`, `ChargeSafety.dfy` | the charge protocol as legal events over a world, its invariant, and what holds of every reachable world |
| `Planning.dfy`, `UnchargedView.dfy`, `Partition.dfy` | grouping the uncharged view, what that view shows, and grouping the pending rows |
| `BillingStore.dfy`, `BatchLemmas.dfy`, `BillingRun.dfy`, `ChargeRun.dfy` | the tables and Stripe as classes, and the charge run call by call, each change recorded as a legal event |
| `Reconcile.dfy`, `Refunds.dfy`, `Paging.dfy` | the billing report, card refunds, the cursor loops |
| `PayoutProtocol.dfy`, `PayoutSafety.dfy`, `PayoutBooks.dfy`, `PayoutRun.dfy` | the same for payouts, onboarding and the payout webhook |
| `Prepay.dfy`, `PrepayHolds.dfy` | one advertiser's prepay account, its holds and alarms |
| `Watermark.dfy` | one publisher's earnings and payouts against clawbacks and approved reviews |
| `Deliveries.dfy` | at-least-once delivery to two endpoints over one dedup table, for any handler |
| `DepositBooks.dfy`, `Deposits.dfy` | what the deposit webhook books over a schedule of deliveries; checkout, capture and the webhook itself |
| `Webhooks.dfy` | the payout webhook over a schedule of deliveries, and both endpoints together |

A class such as `BillingRun.Billing` or `PayoutRun.PayoutDesk` keeps a ghost record of events. Its
`Valid()` says that the record is legal and leads to the present tables, so every lemma about
reachable worlds holds of the tables wherever a run stopped. `calm` and `quiet` describe an
undisturbed run; nothing else is assumed of them.

## What the hypotheses are

They are the legality conditions of the two protocols and the contracts of the Stripe classes.

- A charge create goes out only while the batch's idempotency key answers, or right after a search
  that would have shown a live intent. The search and the create see the same moment.
- Charge runs do not overlap (the single-flight lock), but any number of complete or broken runs may
  happen between a run's planning and its taking of the lock. Payout batches do not overlap either.
- A payout's list call is complete when it succeeds. The publisher read and the look after a
  rejection may fail at any time; payouts failed without an answer are recorded as failed blind.
- A publisher's earnings shrink by clawbacks that refuse while a payout is in flight, or by approved
  reviews, which ask nothing; publishers whose promised payouts an approval left uncovered are recorded
  as overdrawn.
- Stripe's clock is at most a day behind the database's. Details once submitted stay submitted,
  Stripe deletes no account with submitted details, onboarding requests of one publisher do not
  overlap, and an `account.updated` event shows a state the account had.
- Whether an advertiser is house, a group's amount and its being cleared do not change.
- Stripe's list order does not change during one paging loop. A charge becomes succeeded only from
  processing or awaiting capture.
- Reviews are opened and decided only by the database functions made for it.
- The events a webhook is shown are true: a reversal or an account state was so at Stripe, a completed
  session was captured. Checks may miss, handlers may fail and records may be lost, in any delivery.

## Where the code falls short of its documentation

Each is shown by the lemma named first, most with a reached run; the lemmas after it give the exact
condition under which the promise holds, for all inputs.

- A search that errors after the key expired charges a batch twice (`LateBlindRecoveryChargesTwice`;
  `CreateChargesTwiceExactly`).
- The billing report turns negative when a collected advertiser moves to prepay, or a collected group is
  clawed back, although it is described as one-directional (`SwitchTurnsReportNegative`,
  `ClawbackTurnsReportNegative`; `HiddenTurnsReportNegative`).
- A publisher that cannot be read is treated as having no connected account, and a payout whose
  transfer exists is failed and paid again (`UnreadAccountPaysTwice`; `FailedHasTransferExactly`).
- The clawback watermark asks only about the impression; an older, paid sibling click goes with it
  (`OlderSiblingSlipsThrough`; `NothingPaidReversedExactly`). Approving a review asks nothing at all
  (`ApprovalCanOverdraw`; `ApprovalOverdrawsExactly` of one book and of the payout protocol).
- Reserved drifts without an alarm after a switch to prepay (`SwitchDriftsSilently`;
  `DrawKeepsBackedExactly`), and a group clawed back while it waits in a pending batch is drawn all the
  same (`ClawedBackInBatchIsStillDrawn`; `DrawTakesClawedExactly`).
- A refund retried after its key expired is made twice (`CreateRefundsTwiceExactly`,
  `RefundedTwiceExactly`), and `POST /refund` of a balance-settled charge can never credit the
  advertiser (`RefundReview`).
- A transfer reversal delivered before the confirm, or a deposit reversal before the credit, is
  recorded as handled and lost; if its record is lost instead, a later delivery books it
  (`ReversalBooksExactly`, `RefundsConverge`; `ConnectOnceExactly`, `DepositsOnceExactly`).
- Replaying an old `account.updated` undoes a newer one (`StaleUpdateUndoesVerified`;
  `LastUpdateDecides`), although the handler is described as idempotent.

## Model

| member | source | states |
|---|---|---|
| ChargeSafety.CollectedAtMostOnce | supabase/functions/billing/index.ts:401-505 | over any sequence of runs cut short anywhere, with time passing, groups clearing and billing modes flipping: no ledger group is collected twice, by two card charges, two draw-downs or one of each |
| ChargeSafety.CollectedAmount | supabase/functions/billing/index.ts:419-420 | a succeeded card charge took its batch's cleared micros less a remainder below one cent; a draw-down took them exactly |
| ChargeSafety.RouteFrozen | supabase/functions/billing/index.ts:754-764 | a drawn batch never has a PaymentIntent, whatever billing_mode did between reserve, crash and recovery |
| ChargeSafety.ReleaseOnlyBeforeMoney | supabase/functions/billing/index.ts:329-337 | when a batch is released to the view, neither a PaymentIntent nor a draw-down exists for it |
| ChargeSafety.DeclinedHasNoCharge | supabase/functions/billing/index.ts:493-502 | a batch written off as declined has no PaymentIntent that is succeeded, processing or awaiting capture, then or later |
| ChargeSafety.RowsTellTheirBatch | supabase/functions/billing/index.ts:339-381 | the charge rows of a batch show how far it has come: pending, succeeded with the PaymentIntent or by balance, or failed, each with its group's own amount, in every reachable world |
| ChargeSafety.BatchesFrozen | supabase/functions/billing/index.ts:288-316 | members, advertiser, route and cents of a batch never change after reserve, and what was collected stays collected |
| ChargeSafety.StalePlanClaimsOnlyTheFree | supabase/functions/billing/index.ts:292-316 | reserving a plan made before the lock claims only groups without an owner, touches no other row or batch, and gives the batch exactly the sum of what it claimed |
| ChargeSafety.CreateChargesTwiceExactly | supabase/functions/billing/index.ts:441-475 | a create that charges leaves two live charges for a batch if and only if one existed and the batch's key no longer answers: the exact strength of the key-or-search hypothesis |
| ChargeSafety.LateBlindRecoveryChargesTwice | supabase/functions/billing/index.ts:450-453 | that case is reachable: crash after the charge, recovery one key lifetime later, a search that errors and falls through to create |
| ChargeSafety.NextKeepsInv | supabase/functions/billing/index.ts:282-381 | every legal event keeps the invariant: one owner per group, uniform rows per batch, one live intent per batch, keys pointing at their intents, draws at their exact sums |
| Planning.PlanAdvertiserCharges | supabase/functions/_shared/billing-logic.mjs:120-157 | the grouping loop yields one plan per advertiser in order of first appearance, each with all and only its rows and their sum |
| Planning.PlansPartition | test/billing-aggregation.test.mjs:67-198 | the plans are a partition of the fetched rows: as a multiset nothing is lost or invented, and the micros add up |
| Planning.AdvertisersDistinct | supabase/functions/_shared/billing-logic.mjs:121-136 | no advertiser gets two plans, and every advertiser with a row gets one |
| UnchargedView.ViewShowsSeen | supabase/functions/billing/index.ts:670-677 | a run is shown exactly the 500 oldest groups no row claims, each once, with its advertiser's house mark and billing mode at that moment |
| UnchargedView.PlanIsSeen | supabase/functions/_shared/billing-logic.mjs:120-157 | an advertiser's plan has exactly the groups shown of it, their sum, and its house mark and billing mode at that moment |
| Partition.PartitionPendingByBatch | supabase/functions/_shared/billing-logic.mjs:85-94 | recovery's grouping has one entry per batch id with all rows of that batch, in order, and no other; rows without a batch id form an entry of their own |
| BatchLemmas.OpenReadsItself | supabase/functions/billing/index.ts:318-327 | what a pending batch reads back is exactly what it claimed, with the sum it was reserved at; the query limit never cuts it |
| BatchLemmas.UpdateIsSettle | supabase/functions/billing/index.ts:339-381 | the status-filtered UPDATE, which names groups and not the batch, settles that batch and no other |
| BatchLemmas.DeleteIsRelease | supabase/functions/billing/index.ts:331-337 | the status-filtered DELETE over a batch's groups removes that batch's rows and no other |
| BillingStore.Database.DrawDownBatch | supabase/migrations/20260716170000_advertiser_prepay_balance.sql:557-649 | the draw-down reply and the new balance and draw tables, in every case |
| BillingStore.Stripe.Search | supabase/functions/billing/index.ts:443-453 | the search hypothesis: it may fail or lag only while the batch's key still answers |
| BillingStore.Stripe.CreateIntent | supabase/functions/billing/index.ts:455-475 | idempotent create: a live key replays its intent or its decline, otherwise the call charges, is declined or does nothing, and its answer may be lost |
| BillingRun.Billing.AdoptExisting | supabase/functions/billing/index.ts:443-453 | a search that is not excused by a live key adopts a charge that is succeeded, processing or awaiting capture whenever the batch has one |
| BillingRun.Billing.ReservePending | supabase/functions/billing/index.ts:292-316 | the insert-ignoring-duplicates of a plan is the reservation of its unclaimed groups under a fresh batch id |
| BillingRun.Billing.ReselectByBatch | supabase/functions/billing/index.ts:320-327 | an answer that is not empty lists exactly the members of an open batch, with its frozen sum |
| BillingRun.Billing.ObtainIntent | supabase/functions/billing/index.ts:441-475 | search, adopt or create: once the batch's key no longer answers, a charge that is succeeded, processing or awaiting capture is adopted and none is made, disturbed or not; undisturbed and without one, exactly one PaymentIntent is made, of the batch's own cents; under a live key none is made and the key, or a charge found, decides |
| BillingRun.Billing.SettleReservedBatch | supabase/functions/billing/index.ts:401-505 | one batch onto one intent: only its own phase changes; undisturbed it ends charged by that intent, declined on Stripe's word, or released exactly when below 50 cents, with what was adopted or made as in ObtainIntent |
| BillingRun.Billing.ChargeFreshBatch | supabase/functions/billing/index.ts:526-542 | no payment method or a lookup error changes nothing; undisturbed, the plan's free groups become one batch that is charged, declined or released below the minimum |
| BillingRun.Billing.SettlePrepayBatch | supabase/functions/billing/index.ts:571-618 | draws the batch's exact sum at most once; a batch drawn before a crash is marked through the duplicate reply without a second draw; a short balance leaves it pending |
| BillingRun.Billing.ChargePrepayBatch | supabase/functions/billing/index.ts:621-629 | the plan's free groups become one prepay batch that is drawn, or waits because the balance is short |
| ChargeRun.RecoverEntry | supabase/functions/billing/index.ts:736-765 | a pending batch is settled over its frozen route even when the advertiser cannot be read or changed mode; undisturbed it is drawn or short of balance, or on the card released below 500000 micros, else charged by what was under way at Stripe or newly made, or declined |
| ChargeRun.ReleaseUnbatched | supabase/functions/billing/index.ts:737-742 | rows without a batch id go back to the view and are never charged |
| ChargeRun.Recover | supabase/functions/billing/index.ts:725-765 | undisturbed and with at most 1000 pending rows, recovery leaves no batch open but those the balance does not cover, and settles every card batch whose charge was under way at Stripe, its key expired, onto that charge; with balances that cover all open draws it leaves none open |
| ChargeRun.RunPlans | supabase/functions/billing/index.ts:767-807 | undisturbed, one new batch per charging plan with its advertiser, its route and exactly the groups of the plan still unclaimed, each batch charged by an intent that took its money, declined by its key, drawn, short or released below the minimum; and a terminal skipped row for every house group |
| ChargeRun.Charge | supabase/functions/billing/index.ts:658-813 | the whole run: a dry run changes no charge, batch or intent; with rivals running between planning and the lock every claim of the invariant still holds; undisturbed and without rivals, for every advertiser by what the view shows of it (the 500 oldest free groups): house gets no batch and a skipped row a group; prepay at that moment exactly one prepay batch of all of it, drawn or short, however little; postpay exactly one card batch of all of it, charged by an intent that took the money or declined by the key, if and only if it comes to 500000 micros; and older batches are recovered |
| ChargeRun.NothingStranded | supabase/functions/billing/index.ts:725-729 | after such a run a row that still waits belongs to a prepay batch whose advertiser cannot pay for it |
| ChargeRun.StalePlansFit | supabase/functions/billing/index.ts:668-677 | a plan read before the lock stays well-formed however much happens before it is run |
| ChargeRun.EverythingListed | supabase/functions/billing/index.ts:728-735 | a complete read lists every open batch and every waiting row without a batch id |
| ChargeRun.CoveredStays | supabase/functions/billing/index.ts:571-618 | when balances cover all open draws, settling one batch leaves the rest covered |
| Reconcile.DiscrepancyMeaning | supabase/functions/billing/index.ts:865-912 | over a full period: discrepancy = micros of groups in no succeeded PaymentIntent, not clawed back and of advertisers not on prepay + sub-cent remainders - micros collected for groups clawed back since or from advertisers now on prepay |
| Reconcile.ReportSound | supabase/functions/billing/index.ts:816-826 | with nothing collected clawed back or from such advertisers the discrepancy is never negative, and zero if and only if everything counted was collected in whole-cent batches |
| Reconcile.HiddenTurnsReportNegative | supabase/migrations/20260722030000_billing_recon_restore_cpc.sql:36-60 | with everything counted collected in whole cents, the report is negative if and only if a collected group was clawed back or its advertiser went to prepay afterwards, because the database side counts cleared legs of advertisers now on postpay only |
| Reconcile.SwitchTurnsReportNegative | supabase/migrations/20260722030000_billing_recon_restore_cpc.sql:57-59 | that case is reachable: one group charged in full, then the switch |
| Reconcile.ClawbackTurnsReportNegative | supabase/migrations/20260722030000_billing_recon_restore_cpc.sql:36-60 | the other cause is reachable: one group charged in full and clawed back afterwards, with no change of mode |
| Reconcile.EveryMicroHasOnePlace | supabase/functions/billing/index.ts:670-807 | conservation: all cleared micros are unclaimed, in rows without a batch, or in batches that are pending, succeeded or failed, each at its reserved sum |
| Refunds.PartsWithinCharge | supabase/functions/_shared/billing-logic.mjs:20-31 | refunding any subset of a batch's groups at their own floored cents stays within the charge; refunding all falls short by less than a cent a group |
| Refunds.RefundsWithinCharge | supabase/functions/billing/index.ts:959-1035 | with one refund per group, all refunds ever made on a PaymentIntent total at most its cents |
| Refunds.RefundDesk.NeverOverRefunded | supabase/functions/billing/index.ts:927-1043 | for every sequence of reviews, decisions, refunds cut short and retried at any time, and charge runs in between: an intent none of whose reviews was retried late is never refunded beyond its charge |
| Refunds.RefundDesk.NeverRefundedTwice | supabase/migrations/20260716140000_admin_open_clawback.sql:158-160 | two refunds of one group come from one review, from one active review per impression, and are the same refund unless that review was retried late |
| Refunds.RefundDesk.RefundedTwiceExactly | supabase/functions/billing/index.ts:1018-1035 | a review has two refunds if and only if a retry of it reached Stripe after its key had expired |
| Refunds.CreateRefundsTwiceExactly | supabase/functions/billing/index.ts:1018-1028 | a create that reaches Stripe leaves a review with two refunds if and only if the review's key exists and no longer answers |
| Refunds.RefundDesk.RefundReview | supabase/functions/billing/index.ts:942-1043 | each reply exactly under its condition; at most one new refund, for an approved review, of the charged row's own cents on its own intent, never while the review's key is younger than a day, and recorded as late exactly when the key existed; undisturbed a card charge is refunded anew or the key's own refund is returned; the balance path never credits, because an approved review means the impression is clawed back already and admin_prepay_clawback refuses that |
| Paging.SumCollected | supabase/functions/billing/index.ts:865-896 | for every split into pages the loop ends and totals each succeeded LumaLine intent exactly once |
| Paging.MonitorCollected | supabase/functions/monitor/index.ts:275-290 | the monitor's loop over page totals gives the same totals as the reconcile loop, for every split |
| Paging.SumLumalinePaymentIntents | supabase/functions/_shared/monitor-logic.mjs:294-304 | the page helper's total and count |
| Paging.SumTransfers | supabase/functions/stripe-connect/index.ts:598-612 | for every split the loop ends with the net total and count of all LumaLine transfers |
| Paging.SumLumalineTransfers | supabase/functions/_shared/payout-logic.mjs:44-53 | the page helper's total, net of reversals |
| Paging.FindTransferIdByMetadata | supabase/functions/_shared/payout-logic.mjs:92-106 | returns the first transfer carrying the payout id, however deep; none exactly when no page has one |
| Paging.ReportDiscrepancy | supabase/functions/billing/index.ts:902-912 | over a list that shows the account's charges in any order, with any charges that are not LumaLine's among them, the reported discrepancy is the one whose meaning Reconcile proves, and ok means zero |
| Paging.ReportPayouts | supabase/functions/stripe-connect/index.ts:588-626 | likewise for transfers: the reported discrepancy is the database's total less Stripe's net one, the gap BooksMatchStripe explains |
| PayoutSafety.NextKeepsInv | supabase/functions/stripe-connect/index.ts:295-518 | every handler step and environment event keeps the payout invariant |
| PayoutSafety.AtMostOneTransfer | supabase/functions/stripe-connect/index.ts:428-503 | over every run each payout has at most one transfer, and it is for exactly the payout's amount: the rounding conversion is exact |
| PayoutSafety.FailedHasTransferExactly | supabase/functions/stripe-connect/index.ts:438-494 | over every run, a payout failed without having been paid has a transfer if and only if it was failed blind (the publisher read, or the look after a rejection, did not answer) and an earlier create for it had reached Stripe; every other failed payout has none |
| PayoutSafety.TransfersAreCreated | supabase/functions/stripe-connect/index.ts:468-479 | over every run a payout has a transfer if and only if a create call for it reached Stripe |
| PayoutSafety.ScanHidesNothing | supabase/functions/stripe-connect/index.ts:451-456 | a transfer of a pending payout is at the publisher's current account and inside the created_at - 86400 bound |
| PayoutSafety.PendingHasAccount | supabase/functions/stripe-connect/index.ts:439-447 | a pending payout's publisher has a connected account, details submitted and not deleted, that no redo, relink or erasure may touch; so the no_connected_account branch is taken only when the read did not answer |
| PayoutSafety.NeverOverpaid | supabase/migrations/20260701090000_cpc_billing.sql:90-122 | ledger and payouts table agree, and paid plus promised never exceeds matured earnings, save for publishers an approved review overdrew |
| PayoutSafety.ApprovalOverdrawsExactly | supabase/migrations/20260716120000_harden_money_rpc_gates.sql:72-158 | over every run a publisher's promised payouts are covered at every point if and only if no approved review took more than was payable beyond what was promised |
| PayoutSafety.ConfirmBooksOnce | supabase/migrations/20260629100000_payout_rails.sql:189-218 | confirming books one group that sums to zero, takes exactly the promised amount off what that publisher is owed and nothing off anyone else, and a second confirm changes nothing |
| PayoutSafety.RemainderCarried | supabase/migrations/20260629110000_payout_rails_hardening.sql:67-69 | a reserve takes all payable whole cents; less than a cent stays payable, and nothing is lost |
| PayoutBooks.DestinationStable | supabase/functions/stripe-connect/index.ts:313-340 | from reserve to settlement a payout keeps publisher, amount and destination across onboarding, eligibility events and closures |
| PayoutBooks.BooksMatchStripe | supabase/functions/stripe-connect/index.ts:588-618 | Stripe's net total minus the database total is the unconfirmed transfers less undelivered reversals; once all are delivered the two agree |
| PayoutBooks.UnreadAccountPaysTwice | supabase/functions/stripe-connect/index.ts:440-447 | a legal run from the first reserve: the read fails between a transfer and its confirm, the payout is failed, reserved anew and paid a second time, twice what was earned |
| PayoutRun.PayoutDesk.ReserveBatch | supabase/migrations/20260729100000_final_payout_on_close.sql:48-93 | the new payouts are exactly one for each of the first hundred publishers that are verified, active, not held, with an account and nothing pending, and are due at least the minimum (a cent when closing) and at most ten thousand euro; each of all their payable whole cents |
| PayoutRun.PayoutDesk.FindExistingTransfer | supabase/functions/stripe-connect/index.ts:432-435 | a found transfer carries the payout id, is at that destination and not before the bound; none found means none is |
| PayoutRun.PayoutDesk.PreCheck | supabase/functions/stripe-connect/index.ts:451-466 | none found means the payout has no transfer at all |
| PayoutRun.PayoutDesk.SettlePayout | supabase/functions/stripe-connect/index.ts:438-518 | one payout, with the publisher read and every look free to fail: undisturbed it ends paid over its own transfer, or failed without a transfer on a definitive rejection, and no other payout changes; a payout not failed blind fails only with no transfer anywhere |
| PayoutRun.PayoutDesk.Batch | supabase/functions/stripe-connect/index.ts:400-518 | an undisturbed batch reserves exactly what every publisher among the first hundred is due, told in the publishers' own fields; a live one over at most 500 payouts leaves everything that was or became pending paid over its own transfer of exactly its amount, or rejected by Stripe; a dry one leaves it pending and makes no transfer |
| PayoutRun.PayoutDesk.Onboard | supabase/functions/stripe-connect/index.ts:296-377 | refuses a change of country exactly when details were submitted or payouts enabled; undisturbed, it leaves a present account alone, replaces one not completed when another country is asked for, opens and links a fresh one in a supported country, marks the publisher ineligible in a known unsupported one, and asks when no country is known; a publisher with a pending payout keeps its account |
| PayoutRun.PayoutDesk.OnAccountUpdated | supabase/functions/stripe-connect/index.ts:170-174 | the account's publishers end verified exactly when the country is supported, payouts enabled, details submitted and no hold, ineligible exactly when it is not supported, else awaiting details; every other publisher and field stays |
| PayoutRun.PayoutDesk.OnTransferReversed | supabase/migrations/20260629110000_payout_rails_hardening.sql:105-150 | books only what is new of a cumulative reversal, fails the payout exactly at the full amount |
| Prepay.BalanceIsLiability | supabase/migrations/20260716170000_advertiser_prepay_balance.sql:324-359 | over every interleaving of row seeding, deposits, windows, sweeps, draws, reversals, clawbacks and adjustments: every ledger group sums to zero, the balance is minus the advertiser_funds legs, and neither figure is negative |
| Prepay.GrossWithinEstimate | supabase/migrations/20260722140000_close_window_persist_ip_hash.sql:82-141 | what a closed window bills never exceeds what was held when it opened, rounding included |
| Prepay.CloseBillsAttention | supabase/migrations/20260722140000_close_window_persist_ip_hash.sql:82-141 | closing a served window bills its price for every second of attention, elapsed or dwell whichever is less, rounded to the nearest second, half up, and trues its hold up to that; an unserved one is abandoned; a closed one stays |
| Prepay.OpenHoldsEstimate | supabase/migrations/20260716180000_advertiser_serving_guardrails.sql:302-317 | a window is served exactly when what is not held of the balance covers its dwell in whole seconds, rounded up, at its price, and exactly that is then held |
| Prepay.AdjustExactly | supabase/migrations/20260716200000_advertiser_moderation_admin_money_gdpr.sql:505-560 | an administrator's credit is booked as it is; a debit goes through exactly when what is not held covers it; either moves balance and cash alike and no hold |
| Prepay.NextKeepsInv | supabase/migrations/20260716170000_advertiser_prepay_balance.sql:398-730 | every operation keeps balance, postings and the hold of every window in order, and nothing is held without a balance row |
| PrepayHolds.DrawKeepsBackedExactly | supabase/migrations/20260716170000_advertiser_prepay_balance.sql:592-625 | a draw keeps reserved equal to the sum of holds if and only if the holds it zeroes are what it takes off the reserved figure; the underflow alarm looks only at the latter |
| PrepayHolds.CarefulRunsRaiseNoAlarm | supabase/migrations/20260716180000_advertiser_serving_guardrails.sql:498-508 | from the opening or any state in order, when drawn windows were held and trued up, reserved is always the sum of holds and the underflow alarm never fires; without reversals the balance covers the holds and the solvency alarm never fires |
| PrepayHolds.CloseKeepsBacked | supabase/migrations/20260722140000_close_window_persist_ip_hash.sql:137-147 | the true-up at close keeps the holds backed, and never clamps |
| PrepayHolds.ClawbackKeepsBacked | supabase/migrations/20260716200000_advertiser_moderation_admin_money_gdpr.sql:437-482 | a clawback releases the hold it zeroes, and only ever raises the balance |
| PrepayHolds.SwitchDriftsSilently | supabase/migrations/20260716170000_advertiser_prepay_balance.sql:618-630 | drawing a window opened before a switch to prepay eats another window's hold without any alarm: a run reached from the opening of the account |
| PrepayHolds.ClawedBackInBatchIsStillDrawn | supabase/migrations/20260716200000_advertiser_moderation_admin_money_gdpr.sql:437-450 | a window clawed back while its charge waits in a pending batch is drawn all the same: a run reached from the opening of the account |
| PrepayHolds.DrawTakesClawedExactly | supabase/migrations/20260716170000_advertiser_prepay_balance.sql:557-649 | a draw-down takes nothing for clawed-back windows if and only if no member of its batch was clawed back with something to bill |
| PrepayHolds.ReconciledRunsStayBacked | supabase/migrations/20260716170000_advertiser_prepay_balance.sql:764-806 | after any history, however far reserved had drifted, every careful run that follows one reconcile keeps it at the sum of holds and raises no underflow |
| PrepayHolds.ReversalsConverge | supabase/migrations/20260722040000_advertiser_deposit_refund_delta.sql:60-105 | the database functions by themselves, called in any order and number: a deposit is credited once, refunds booked on it total the largest cumulative amount asked for, and every table row is booked for exactly its amount; what the webhook asks for is DepositBooks |
| PrepayHolds.ReversalSplits | supabase/functions/_shared/advertiser-logic.mjs:51-70 | a reversal takes what the balance holds, writes off the rest as bad debt, and stops the balance at zero |
| Watermark.PaidEarningsStand | supabase/migrations/20260716220000_admin_open_clawback_reserve_release.sql:142-172 | an earning in the paid tranche at some point of a run stands, and is paid, at every later point if and only if none of these follows: a payout reversed back past it, an older earning cleared late, its window clawed back for a younger impression, or its window's review approved |
| Watermark.PromisesAreCovered | supabase/migrations/20260716220000_admin_open_clawback_reserve_release.sql:93-172 | over every sequence of accruals, reserves, confirms, reversals, clawbacks and approvals payable covers the promised payout at every point if and only if no approval took more than that; the refusal while a payout is in flight keeps clawbacks from breaking it |
| Watermark.ReservePromisesExactly | supabase/migrations/20260729100000_final_payout_on_close.sql:48-93 | a reserve promises all payable whole cents exactly when nothing is promised yet and they are within its bounds |
| Watermark.PayoutsMovePaid | supabase/migrations/20260629100000_payout_rails.sql:189-218 | a confirm pays what was promised and a failure nothing, either freeing the promise; a reversal gives back what it says |
| Watermark.NothingPaidReversedExactly | supabase/migrations/20260716140000_admin_open_clawback.sql:85-137 | a clawback that goes through reverses nothing paid if and only if every older sibling click passes the same watermark; the code asks only about the impression |
| Watermark.ClawsBackExactly | supabase/migrations/20260716220000_admin_open_clawback_reserve_release.sql:87-172 | a clawback goes through if and only if the earning stands, no payout is in flight, no click of the window was charged, no review of it is open, as much as was paid is older, and what remains covers what was paid; then all of the window is reversed and it has its review; one refused changes nothing |
| Watermark.UnpaidWindowStaysSolvent | supabase/migrations/20260716220000_admin_open_clawback_reserve_release.sql:163-172 | reversing a window outside the paid tranche never makes payable negative, so the roll-back would never happen |
| Watermark.AggregateAloneIsNotEnough | supabase/migrations/20260716140000_admin_open_clawback.sql:67-75 | in a reached book the aggregate check alone lets a wholly paid earning be reversed; the watermark refuses it |
| Watermark.OlderSiblingSlipsThrough | supabase/migrations/20260716220000_admin_open_clawback_reserve_release.sql:163-169 | in a reached book a wholly paid click older than its window's impression is reversed with it |
| Watermark.ApprovalCanOverdraw | supabase/migrations/20260716120000_harden_money_rpc_gates.sql:72-160 | the review path has no such guard: in a reached book, approving leaves payable negative |
| Watermark.ApprovalOverdrawsExactly | supabase/migrations/20260716120000_harden_money_rpc_gates.sql:72-158 | approving a review leaves payable non-negative if and only if the window's matured standing earnings are within it |
| Deliveries.OnceExactly | supabase/functions/advertiser-portal/index.ts:165-173 | for any handler, over every schedule of deliveries with missed checks, failing handlers and lost records: the state is at every point that of handling each delivery once if and only if no repeated handling changed anything |
| Deliveries.RowsWereHandled | supabase/functions/advertiser-portal/index.ts:262-271 | a failed handler leaves no row: over every schedule there is a dedup row exactly where some turn handled a delivery of that event at that endpoint and its record was kept |
| Deliveries.FaithfulNeverRepeats | supabase/functions/stripe-connect/index.ts:205-218 | where no check misses and no record is lost, rows and handled deliveries are the same set and nothing is handled twice, however often a handler failed before |
| DepositBooks.DepositsOnceExactly | supabase/functions/advertiser-portal/index.ts:165-272 | over every schedule, mixed with draws, windows, clawbacks and adjustments: the accounts are at every point those of handling each event once if and only if no reversal handled too early, and uncovered since, is handled again after its deposit's credit |
| DepositBooks.RefundsConverge | supabase/functions/advertiser-portal/index.ts:207-240 | over every schedule a deposit is in the books exactly when a credit for it was handled, to the first one's advertiser and booked once at its amount, and the refunds booked on it total the largest cumulative amount handled after the credit |
| DepositBooks.HandleChangesExactly | supabase/functions/advertiser-portal/index.ts:178-257 | handling an event changes the books if and only if it is a first credit, a refund above what was refunded of a credited deposit, or a new dispute of one |
| Deposits.Portal.Checkout | supabase/functions/advertiser-portal/index.ts:295-352 | each reply exactly under its condition on the requested amount; a URL is handed out only with a stored intent, for exactly the whole cents the request comes to with its fraction of a micro dropped, between five and five thousand euro |
| Deposits.Portal.Webhook | supabase/functions/advertiser-portal/index.ts:165-272 | check, resolve, one effect, record: the reply, the dedup rows and the accounts after it under every combination of missed check, failed handler and lost record; what a handled event books, event by event: a paid session credits its advertiser 10000 micros a cent unless the PaymentIntent has a deposit, a refund takes back 10000 micros a cent of what is new, a first dispute 10000 micros a cent or the whole deposit, anything else nothing; a failed one leaves no row, and a suppressed one had this endpoint's own row |
| Deposits.Portal.CreditedExactly | supabase/functions/advertiser-portal/index.ts:177-206 | a captured session whose completion is recorded is credited to its own advertiser and booked once, at 10000 micros a captured cent |
| Deposits.Portal.NothingInvented | supabase/functions/advertiser-portal/index.ts:179-195 | every credit is a capture with a stored intent, of one advertiser only |
| Deposits.Portal.OnceUnlessLate | supabase/functions/advertiser-portal/index.ts:165-272 | the portal's own accounts are those of handling each event once if and only if no early reversal came back late |
| Deposits.Portal.RefundedAsHandled | supabase/functions/advertiser-portal/index.ts:223-240 | what is refunded of a deposit in the portal's ledger is 10000 micros for each of the most cents any refund event handled after its credit says are refunded |
| Webhooks.ConnectOnceExactly | supabase/functions/stripe-connect/index.ts:205-292 | over every schedule, mixed with batches, confirms, onboarding and time: payouts and publishers are at every point those of handling each event once if and only if no delivery was handled again that was an account.updated a publisher no longer shows, or a reversal first handled before its payout's confirm and not covered by another since |
| Webhooks.ReversalsConverge | supabase/migrations/20260629110000_payout_rails_hardening.sql:105-150 | over every schedule, mixed with confirms and everything else: the reversal booked on a payout is the largest cumulative amount handled after its confirm, up to the payout; what was handled before is not among it |
| Webhooks.ReversalBooksExactly | supabase/functions/stripe-connect/index.ts:235-249 | a reversal books something if and only if a paid payout carries the transfer and not all of it is booked; delivered before the confirm it is lost |
| Webhooks.LastUpdateDecides | supabase/functions/stripe-connect/index.ts:224-232 | for any world, account and schedule of its account.updated events: its publishers end with the newest event's status if and only if the event handled last gives the same |
| Webhooks.StaleUpdateUndoesVerified | supabase/functions/stripe-connect/index.ts:224-232 | it does occur: an old event whose record was lost comes again after a newer one and undoes it, where once would have left verified |
| Webhooks.EndpointsIndependent | supabase/migrations/20260722020000_webhook_dedup_namespace.sql:14-30 | over every shared schedule of both endpoints' deliveries, each endpoint's tables and dedup rows are those of its own deliveries alone: neither suppresses the other |
| Webhooks.ConnectWebhook.Webhook | supabase/functions/stripe-connect/index.ts:205-292 | check, handle, record over the table shared with the portal, under every combination of missed check, failed handler and lost record; a handled account.updated leaves every publisher of the account with the status its flags and the hold give, a handled reversal moves the payout that carries the transfer up to 10000 micros a cent, its legs with it, and fails it exactly at its full amount; a failed handler leaves no row, and a suppressed delivery had this endpoint's own row |
| Webhooks.ConnectWebhook.OnceUnlessStale | supabase/functions/stripe-connect/index.ts:205-292 | the tables of the webhook's own payout desk, wherever batches, onboarding and deliveries led them, are those of handling each event once if and only if no stale delivery was handled again |
| Webhooks.ConnectWebhook.ReversedAsHandled | supabase/functions/stripe-connect/index.ts:233-250 | what a payout row of the desk books as reversed is the largest cumulative amount handled after its confirm, up to the payout |
| Webhooks.Endpoints.DeliverToConnect | supabase/migrations/20260722020000_webhook_dedup_namespace.sql:14-30 | a delivery to one endpoint leaves the other's rows, accounts and invariant alone, though it has the same event id |

## Left out

- BillingStore.Database.DrawDownBatch: does not model the reserved figure, the zeroed window holds, the ledger legs or the alarms; those are in Prepay, for the same SQL.
- BillingStore.Stripe.Search: does not model the limit of ten results; a complete answer is taken to show every intent of the batch.
- BillingRun.Billing.SettleReservedBatch: does not model the stamping of impressions, the pausing of line items, or a write that lands after its caller stopped waiting for it.
- ChargeRun.Charge: does not model the lock's ten-minute expiry, which lets a second run start while a slow one still works; runs are assumed not to overlap.
- ChargeProtocol: does not model a group clawed back before it is reserved, which leaves the view; the report takes the clawed-back groups as a set. Nor rows that have a batch id but no settle mode.
- Prepay.NextKeepsInv: does not model a clawback of a balance-settled charge after its advertiser left prepay, which is not credited back.
- Watermark.OpenClawback: does not model the no-op for impressions without a gross amount.
- PayoutRun.PayoutDesk.Batch: does not model overlapping batches; nothing in the code keeps the weekly job and an administrator apart.
- PayoutRun.PayoutDesk.Onboard: does not model which country is chosen, only whether one is known and supported.
- Deposits.Portal.Webhook: does not model events without a session id, or an advertiser erased between checkout and capture.
- Signatures, JWT and money-admin checks, CORS, JSON shaping and HTTP status codes.
- Choice of payment method, customer creation and line-item pausing, which appear as outcomes only.
- Emails and the connect-nudge pass, which do not affect payouts.
- Webhooks.ConnectWebhook.Batch: takes deliveries that arrive in the middle of a payout batch to leave no dedup row; the same holds of Onboard.
- Webhooks.ConnectWebhook.Webhook: does not model charge.dispute events, which are deliveries without effect here; post-pay chargebacks are outside the model.
- Post-pay chargebacks (`book_postpay_chargeback`), publisher holds beyond their effect on eligibility, and fraud scans.
- Serving, clicks, heartbeats, device authorization, the command line client, configuration and installation.
- Campaign booking, creative moderation, retention and erasure beyond their effect on payouts.
