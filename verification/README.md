# Verified model of the shop's money, stock, cache and retention logic

This Dafny project models the parts of the Django shop where several pieces of state have
to stay in step, and proves what they promise over all inputs and all runs. One file holds
one module. `dafny verify dfyconfig.toml` checks everything.

| component | modules | how it is modelled |
|---|---|---|
| checkout webhook, stock | `PaymentTables`, `WebhookRuns`, `StockConfluence`, `Settling`, `Outcomes`, `Shop` | every delivery is a small-step process over the shared tables; each SQL statement is one step; deliveries interleave, are replayed, crash and lose blocks to database errors. `Shop` is the same code run alone, as loops over mutable rows |
| refunds | `Refunds`, `Returns` | the order's ledger against Stripe's charge, which may refuse any refund; analyst actions as steps, batches as runs of steps, and the admin actions as loops over rows loaded beforehand |
| rate limiter | `RateLimit` | a cache with timeouts, a clock that may advance between any two cache calls, and interleaved requests |
| catalog | `Facets`, `FacetLinks`, `Pages`, `CatalogCache` | filters, counts, links and pages as functions with their loops; the cache with its key registry as a state machine of visits, expiries, signalled and silent writes |
| cart to Stripe | `CartMoney` | the session dictionary with string keys, the order's items, and the line items in cents |
| email links | `EmailTokens` | the token table against the history of what was issued and accepted |
| log redaction | `Redaction` | recursive values, dotted paths, and the formatter's loop |
| backup retention | `Retention` | Python's stable sort and slices |

`Options`, `Seqs` and `Strings` are small helpers. Amounts are exact reals in dollars, as
Python's `Decimal` is here, and integers in cents; the two-decimal column of the refunded
amount rounds half up, as PostgreSQL's `numeric` does.

## Where the code and its documentation differ

The model follows the code.

- A page number below 1 or past the end goes to the *last* page; the comment in
  `be/ecommerce/shop/views/product_list_view.py:221-225` says page 1. Only a page that is
  not an integer goes to page 1 (`Pages.PageNumber`).
- "Clicking a selected value again removes it" fails for a rating the URL spells in
  another way, such as ` 4`; `FacetLinks.SelectedRatingIsRemovedIff` says exactly when it
  holds and `FacetLinks.SpacedRatingIsNotRemoved` gives the failing URL.
- A partial refund in fractions of a cent, or a full refund of a discounted order, leaves
  the order's ledger and Stripe's apart. `Refunds.FractionalCentsAgreeIff` and
  `Refunds.DiscountedFullRefundAgreesIff` say exactly when they still agree, and
  `Refunds.FractionalCentsDiverge` and `Refunds.DiscountedFullRefundDiverges` give inputs.
- The refund metric can fall below the refunded amount, because the column rounds and the
  metric does not. `Refunds.MetricBelowIff` says exactly when one refund does that,
  `Refunds.MetricDiverges` gives an input, and `Refunds.MetricTelescopes` the exact
  difference after any run.
- Rotating early with a negative `--keep-n`, which the command line accepts, can lose
  backups, as in `Retention.NegativeKeepLosesBackup`; `Retention.IncrementalRetentionIff`
  says exactly when it does not.
- `docker/backup/retain.py:55-57` calls the deleted list oldest-first; it is newest-first.
- The gate that makes a delivery act at most once also means that a winner that dies
  before its dispatch takes the invoice with it (`WebhookRuns.LostInvoiceStaysLost`).
- Canceling an already canceled return is not skipped: it is saved and counted again
  (`Returns.CountedIff`).

## Model

| member | source | states |
|---|---|---|
| `WebhookRuns.AtMostOnce` | be/ecommerce/payment/views/stripe_webhook_view.py:58-120 | over every interleaving of concurrent, replayed and crashing deliveries and reviews, no effect on an order (win, revenue, fraud evaluation, one take per stock row, invoice) happens twice, all of an order's effects are one delivery's, and the paid row carries that delivery's payment intent |
| `WebhookRuns.WinnerDoesEverything` | be/ecommerce/payment/views/stripe_webhook_view.py:65-120 | a delivery that finishes past the gate has done revenue, fraud and invoice, and, unless its stock block raised, one take for exactly the tracked targets of the order |
| `WebhookRuns.Reachable` | be/ecommerce/payment/views/stripe_webhook_view.py:58-65 | in every reachable state each delivery past the gate finds its order paid with its own intent, no two share an order, and the log holds exactly what the deliveries did, each thing once |
| `WebhookRuns.PaidStays` | be/ecommerce/payment/views/stripe_webhook_view.py:48-64 | a paid order stays paid, with the same payment intent and status, through every later event |
| `WebhookRuns.FlagStaysCleared` | be/ecommerce/orders/admin.py:59-70 | a fraud flag that is clear once the order's fraud stage is over stays clear whatever is delivered, replayed or reviewed later |
| `WebhookRuns.LostInvoiceStaysLost` | be/ecommerce/payment/views/stripe_webhook_view.py:84-91 | when the winner dies before dispatching, no later delivery ever dispatches that order's invoice |
| `WebhookRuns.GateStep` | be/ecommerce/payment/views/stripe_webhook_view.py:58-65 | every single step keeps one winner per order and its facts about the shared rows |
| `WebhookRuns.LoggedStep` | be/ecommerce/payment/views/stripe_webhook_view.py:65-120 | every single step keeps the log equal to what the deliveries have done, without repetition |
| `WebhookRuns.StepKeepsTables` | be/ecommerce/payment/views/stripe_webhook_view.py:58-98 | no step un-pays or re-keys a paid order, adds or drops rows, or changes which stock is tracked |
| `Outcomes.EachAnswer` | be/ecommerce/payment/views/stripe_webhook_view.py:44-65 | over every interleaving, once a delivery is past the gate: it was refused if and only if its order does not exist, it is a replay if the order was paid before, and an order that was unpaid is now paid with exactly one winner |
| `Outcomes.DeliveredAlone` | be/ecommerce/payment/views/stripe_webhook_view.py:44-120 | one delivery for an unpaid order, driven alone to its end, leaves the order paid with its intent and status and the fraud columns that evaluation gave, the stock that the order's lines leave, exactly one invoice, and every other order row as it was |
| `Outcomes.FirstDeliveryPays` | be/ecommerce/payment/views/stripe_webhook_view.py:44-64 | reading an existing unpaid order and the guarded UPDATE leave it paid with the delivery's intent and status PAID, one logged win, and everything else unchanged |
| `Outcomes.OtherDeliveriesDoNothing` | be/ecommerce/payment/views/stripe_webhook_view.py:44-65 | a delivery for an unknown order ends refused and one for a paid order ends as a replay, and no table changes |
| `Outcomes.ScoreWrites` | be/ecommerce/payment/views/stripe_webhook_view.py:92-98 | the fraud UPDATE writes score, flag by the threshold and notes of the delivery's own order and nothing else |
| `Outcomes.ReviewWrites` | be/ecommerce/orders/admin.py:59-70 | a review clears the flag and prefixes the notes, cut to 250 characters; score, payment columns and other orders stay |
| `Outcomes.StockErrorStillDispatches` | be/ecommerce/payment/views/stripe_webhook_view.py:110-120 | a stock block that raises, at any of its steps, is followed by the invoice |
| `Outcomes.KilledStays` | be/ecommerce/payment/views/stripe_webhook_view.py:44-120 | a delivery whose process is killed at any statement stays exactly where it was killed, whatever interleaving of other events follows |
| `StockConfluence.StockAlwaysBounded` | be/ecommerce/shop/inventory.py:52-60 | at every moment of every interleaving, crashes and errors anywhere, tracked stock lies between what the demand so far leaves and what there was, and is the exact difference while demand is covered |
| `StockConfluence.StockExact` | be/ecommerce/shop/inventory.py:42-60 | when every winner is through, each tracked row is max(0, initial minus the total the newly paid orders ordered of it) and untracked rows are untouched |
| `StockConfluence.StockConfluent` | be/ecommerce/shop/inventory.py:52-60 | two settled runs that paid the same orders leave the same stock, whatever ran between a failed UPDATE and its clamp |
| `Settling.SettlesIff` | be/ecommerce/payment/views/stripe_webhook_view.py:65-120 | from any reachable state some continuation brings every winner through, without another order being paid, if and only if every winner is through already or alive with a stock block that has not raised |
| `Settling.RowsExist` | be/ecommerce/shop/inventory.py:42-50 | the targets dictionary exists for any lines and any stock |
| `StockConfluence.RowStep` | be/ecommerce/shop/inventory.py:54-60 | every step keeps a row exact until demand passes the stock, and afterwards zero or owed a clamp |
| `StockConfluence.AggregatesAskForAll` | be/ecommerce/shop/inventory.py:42-50 | the targets dictionary asks for each tracked target exactly the sum of the order's lines for it |
| `PaymentTables.OrderedPlainLine` | be/ecommerce/shop/inventory.py:44-50 | a line without a variant adds its quantity to its product's row and to no other |
| `PaymentTables.OrderedVariantLine` | be/ecommerce/shop/inventory.py:44-50 | a line with a variant adds its quantity to the variant's row and to no other |
| `PaymentTables.OrderedIsPieces` | be/ecommerce/shop/inventory.py:42-50 | what an order takes, summed over any duplicate-free list of rows that covers its lines, is the sum of the lines' quantities |
| `Shop.OneLineTakes` | be/ecommerce/shop/inventory.py:52-60 | an order of one line takes its quantity from its own tracked row, down to zero at most, and leaves every other row |
| `StockConfluence.TotalAskedIsDemand` | be/ecommerce/shop/inventory.py:42-50 | summing what settled deliveries asked for is summing the orders they won, each once |
| `StockConfluence.WonIsNewlyPaid` | be/ecommerce/payment/views/stripe_webhook_view.py:58-65 | the orders won by deliveries are exactly the orders the run paid |
| `Shop.Shop.CollectTargets` | be/ecommerce/shop/inventory.py:42-50 | the loop maps exactly the tracked targets of the lines to their total quantities |
| `Shop.Shop.DecrementForOrder` | be/ecommerce/shop/inventory.py:33-60 | every tracked row becomes what the order leaves of it, never negative, whatever order the dictionary is walked in; no other row changes |
| `Shop.Shop.CompletedCheckout` | be/ecommerce/payment/views/stripe_webhook_view.py:44-120 | the whole new state of one delivery run alone: unknown order, replay that changes nothing, or the paid row, fraud columns, stock and one invoice, with fraud evaluation free to raise |
| `Shop.OrdersCommute` | be/ecommerce/shop/inventory.py:33-60 | two orders decremented in either order leave what one order with both their lines leaves |
| `Refunds.LedgersAgree` | be/ecommerce/payment/refunds.py:79-158 | over any sequence of full and whole-cent partial refunds that Stripe may refuse, and of up-to-date events, 100 times the refunded amount is Stripe's refunded cents, never decreases and never passes the order total |
| `Refunds.RefundAgrees` | be/ecommerce/payment/refunds.py:103-158 | one call keeps the ledgers in agreement; it succeeds only by raising the amount by the delta, and any other outcome changes nothing |
| `Refunds.RefundSucceedsIff` | be/ecommerce/orders/models/order_model.py:124-131 | with the ledgers in agreement a call goes through if and only if the order is paid through Stripe, Stripe is up, something is refundable, and a given amount is positive and at most what is refundable |
| `Refunds.ReasonIs` | be/ecommerce/payment/refunds.py:87-133 | which reason a refused call gives, in the order of the checks; with Stripe down none succeeds |
| `Refunds.CentsIs` | be/ecommerce/payment/refunds.py:56-58 | the conversion to cents drops the fraction of a cent, towards zero |
| `Refunds.OldInstanceRefunds` | be/ecommerce/payment/refunds.py:61-76 | an instance loaded before other refunds were recorded is refunded as the row would be |
| `Refunds.RefundWrites` | be/ecommerce/payment/refunds.py:114-144 | a successful refund writes Stripe's refund id and raises Stripe's side by the amount in cents, or to the whole charge; no other column of the order changes |
| `Refunds.EventWrites` | be/ecommerce/payment/views/stripe_webhook_view.py:132-182 | an event writes the amount in dollars and the refund id if Stripe lists exactly one, else blank; payment columns and charge stay, and the metric gains a positive difference only |
| `Refunds.TotalIs` | be/ecommerce/orders/models/order_model.py:93-122 | the total is the sum of price times quantity, less the discount percentage |
| `Refunds.CurrentEventAgrees` | be/ecommerce/payment/views/stripe_webhook_view.py:144-182 | an event that carries what Stripe holds changes neither the amount nor the metric |
| `Refunds.FullyRefundedIsFinal` | be/ecommerce/payment/refunds.py:106-112 | once the total is refunded no later call contacts Stripe, and charge and metric stay as they are |
| `Refunds.FractionalCentsAgreeIff` | be/ecommerce/payment/refunds.py:56-58 | after a partial refund the ledgers agree if and only if the amount's fraction of a cent is under a half |
| `Refunds.FractionalCentsDiverge` | be/ecommerce/payment/refunds.py:121-125 | refunding 1.006 dollars gives back 100 cents and records 1.01 dollars |
| `Refunds.DiscountedFullRefundAgreesIff` | be/ecommerce/orders/models/order_model.py:93-122 | after the first full refund of an order charged without its discount the ledgers agree if and only if the discount is at most half a cent |
| `Refunds.DiscountedFullRefundDiverges` | be/ecommerce/payment/refunds.py:115-118 | a full refund of 10.04 dollars at 10 percent off gives back 1004 cents at Stripe, records 9.04 dollars on the row and 9.036 in the metric |
| `Refunds.MetricTelescopes` | be/ecommerce/payment/refunds.py:135-156 | over every run of refunds of any amounts and totals and of events in any order, what the metric is ahead of or behind the refunded amount is exactly what rounding to the column gained or lost plus what dropping events took back |
| `Refunds.MetricNeverBelow` | be/ecommerce/payment/refunds.py:135-156 | as long as no successful refund has half a cent or more to round, the metric is never below the refunded amount, and equals it if and only if no refund had a fraction of a cent and no event carried less than the stored amount |
| `Refunds.MetricInCents` | be/ecommerce/payment/refunds.py:135-156 | with partial amounts and the total in whole cents the metric is never below the refunded amount, and equals it if and only if no event carried less than the stored amount |
| `Refunds.MetricBelowIff` | be/ecommerce/payment/refunds.py:137-156 | after a successful refund from equality the metric is below the refunded amount if and only if the fraction of a cent of the amount, or of the total in a full refund, is a half or more, and equal if and only if there is none |
| `Refunds.MetricDiverges` | be/ecommerce/payment/refunds.py:152-156 | refunding 1.006 dollars leaves the metric at 1.006, below the 1.01 dollars of the row |
| `Refunds.StepExcess` | be/ecommerce/payment/refunds.py:135-156 | one refund of any amount, or one event, moves the metric against the refunded amount by exactly its rounding or its drop |
| `Refunds.ReplayAddsNothing` | be/ecommerce/payment/views/stripe_webhook_view.py:161-182 | applying the same event again changes neither the order nor the metric |
| `Refunds.StaleInstanceIsEnough` | be/ecommerce/payment/refunds.py:61-76 | a loaded order whose refunded amount is out of date is refunded exactly as the stored row would be |
| `Refunds.Account.Refund` | be/ecommerce/payment/refunds.py:79-158 | the guarded call from a possibly stale instance: new row, charge, metric and reason are those of the specification, and the instance follows the row |
| `Refunds.Account.ApplyEvent` | be/ecommerce/payment/views/stripe_webhook_view.py:150-182 | writes the event's cumulative amount and single refund id, and records only a positive difference |
| `Returns.MoneyIsOnReceipts` | be/ecommerce/returns/admin.py:99-159 | over any sequence of actions on any mix of requests each order's refunded amount, and Stripe's in cents, rise by exactly the receipts given for it, never past the total, and all ledgers still agree |
| `Returns.BatchRefunds` | be/ecommerce/returns/admin.py:112-147 | for any batch, full-order and item requests mixed in any order: if a full-order request of an order is flipped, the order is refunded to its total; if none is, its refunded amount rises by exactly the costs of the items whose requests are flipped |
| `Returns.ReceiptsAreTrue` | be/ecommerce/returns/admin.py:122-131 | over any sequence of actions every receipt of a request is for the request's own order and, if it covers an item, of exactly the item's cost |
| `Returns.FullRequestEmptiesOrder` | be/ecommerce/returns/admin.py:122-125 | a full-order request that became REFUNDED leaves its order refunded to the total |
| `Returns.ClosedStaysClosed` | be/ecommerce/returns/admin.py:99-108 | once an order is refunded in full no action changes its ledger or adds a receipt for it |
| `Returns.Lifecycle` | be/ecommerce/returns/models/return_request_model.py:28-33 | over all sequences of actions REFUNDED, REJECTED and CANCELED are absorbing, and a request has one more receipt exactly when it entered REFUNDED |
| `Returns.EnteredFromApproved` | be/ecommerce/returns/admin.py:112-142 | a request that became REFUNDED did so from APPROVED, at a step whose refund went through |
| `Returns.StepLifecycle` | be/ecommerce/returns/admin.py:46-184 | every action moves a request along an allowed edge only, and into REFUNDED only by a refund that went through |
| `Returns.DecisionsDo` | be/ecommerce/returns/admin.py:46-184 | approve takes SUBMITTED to APPROVED, reject takes SUBMITTED and APPROVED to REJECTED, mark_canceled takes everything but REFUNDED and REJECTED to CANCELED; every other status, request, ledger and receipt stays |
| `Returns.CountedIff` | be/ecommerce/returns/admin.py:54-184 | approve counts SUBMITTED requests only, reject also APPROVED ones, and mark_canceled all but REFUNDED and REJECTED, the already canceled included |
| `Returns.MarkFlipsIff` | be/ecommerce/returns/admin.py:112-147 | mark_refunded flips a request if and only if it is APPROVED, its order is paid through Stripe, Stripe is up, something is left to refund, and an item's cost is positive and at most what is left |
| `Returns.MarkWrites` | be/ecommerce/returns/admin.py:133-142 | a flipped request and its order carry Stripe's refund id and no other order or request changes; an unflipped one changes nothing |
| `Returns.WholeRefundIff` | be/ecommerce/orders/admin.py:83-95 | a full refund gives a receipt for exactly what is left if and only if the order is paid through Stripe, Stripe is up and something is left |
| `Returns.ItemCostIs` | be/ecommerce/returns/models/return_request_model.py:95-104 | the cost of an item request is the item's price times its quantity |
| `Returns.StepBalances` | be/ecommerce/returns/admin.py:112-142 | one action changes an order's ledger by exactly the receipt it adds |
| `Returns.ReturnDesk.DecideOn` | be/ecommerce/returns/admin.py:46-97 | approve, reject and mark_canceled over rows loaded beforehand do what the steps do one by one, and count the eligible requests |
| `Returns.ReturnDesk.MarkAllRefunded` | be/ecommerce/returns/admin.py:99-159 | the loop over loaded requests and stale orders is the run of its steps; the refunded count is the number of new receipts |
| `Returns.ReturnDesk.MarkLoaded` | be/ecommerce/returns/admin.py:112-147 | one request: REFUNDED with the row's refund id when the refund went through, else untouched; no other request changes |
| `Returns.ReturnDesk.IssueFullRefunds` | be/ecommerce/orders/admin.py:75-100 | full refunds of a selection of loaded orders are the run of their steps, with matching counts |
| `RateLimit.CountsAreConsecutive` | be/ecommerce/ecommerce/rate_limit.py:130-142 | over every interleaving of cache calls and clock advances the counts returned in one counter lifetime are 1, 2, 3, and so on |
| `RateLimit.AtMostTwiceLimit` | be/ecommerce/ecommerce/rate_limit.py:130-152 | at most the limit passes per lifetime, and at most twice the limit in any interval as long as the period, the expired-between-add-and-incr path included |
| `RateLimit.DecidedByItsHit` | be/ecommerce/ecommerce/rate_limit.py:137-152 | a decided request was let through if and only if its window had counted fewer than the limit before it |
| `RateLimit.NotThreeLifetimes` | be/ecommerce/ecommerce/rate_limit.py:135-142 | an interval as long as the period never meets three lifetimes of a bucket |
| `RateLimit.TwoLivesCover` | be/ecommerce/ecommerce/rate_limit.py:135-142 | all hits of a bucket inside such an interval belong to at most two lifetimes |
| `RateLimit.LifetimePasses` | be/ecommerce/ecommerce/rate_limit.py:144-152 | a lifetime passes its first `limit` hits and no others |
| `RateLimit.HandleIsASchedule` | be/ecommerce/ecommerce/rate_limit.py:130-152 | a request handled at one instant is the interleaving that lets nothing in between |
| `RateLimit.HandleCounts` | be/ecommerce/ecommerce/rate_limit.py:135-152 | a request in a live window counts one more and leaves its end alone, in a dead one it starts a full period with count one; the new count decides, and other buckets are untouched |
| `RateLimit.ExpiredBetween` | be/ecommerce/ecommerce/rate_limit.py:137-142 | a request whose window expired between add and incr is counted first in a new full window, and let through whenever the limit is positive |
| `RateLimit.AddsDo` | be/ecommerce/ecommerce/rate_limit.py:11-16 | an add leaves a live key alone and gives a dead one its value and a full timeout |
| `RateLimit.StepsDo` | be/ecommerce/ecommerce/rate_limit.py:130-150 | whenever a request's cache calls come, its deadline is the time it came in plus the period, and the wait it is told counts from that time |
| `RateLimit.RequestAlone` | be/ecommerce/ecommerce/rate_limit.py:125-152 | a lone request of a known scope with a positive period gets the wrapper's answer and leaves its cache |
| `RateLimit.SecondAttempt` | be/ecommerce/ecommerce/rate_limit.py:103-108 | with one attempt a minute a second one 10.5 seconds later is told to wait 50 seconds |
| `RateLimit.CacheAfterOk` | be/ecommerce/ecommerce/rate_limit.py:130-142 | in every run of instant requests counter and deadline keys come and go together, with the deadline equal to the counter's expiry |
| `RateLimit.RetryAfter` | be/ecommerce/ecommerce/rate_limit.py:103-108 | whatever expired or was overtaken since the request came in, the answer is within 1..period |
| `RateLimit.RetryAfterExact` | be/ecommerce/ecommerce/rate_limit.py:103-108 | Retry-After (section 10.2.3 of RFC 9110) is the time left rounded up, in 1..period; the window is over that many seconds later and not one second sooner |
| `RateLimit.RateLimiter.Handle` | be/ecommerce/ecommerce/rate_limit.py:121-152 | the wrapper call by call: no window when the period is not positive, else the specification's answer and cache, and lockstep is kept |
| `Facets.ApplyFacetsIsListing` | be/ecommerce/shop/facets.py:163-198 | the staged filters are one filter by the conjunction over facets of the disjunction within each |
| `Facets.BandsPartition` | be/ecommerce/shop/facets.py:153-160 | every price is in exactly one band, the one price_band_for names |
| `Facets.OneFacetNarrows` | be/ecommerce/shop/facets.py:313-329 | the listing is the set filtered by the other facets narrowed by this one, in order |
| `Facets.CategoryCountsAddUp` | be/ecommerce/shop/facets.py:255-280 | with categories selected the listing has as many products as their counts add up to |
| `Facets.PriceCountsAddUp` | be/ecommerce/shop/facets.py:283-297 | with bands selected the listing has as many products as their counts add up to |
| `Facets.PriceCountsCoverAll` | be/ecommerce/shop/facets.py:283-297 | the counts of all bands add up to the set filtered by the other facets |
| `Facets.CountIsListingSize` | be/ecommerce/shop/facets.py:219-252 | the count of any value of any facet is the size of the listing with it as the facet's only choice |
| `Facets.SelectedCountIsListing` | be/ecommerce/shop/facets.py:300-310 | the count of the selected rating, and of stock when selected, is the size of the listing |
| `Facets.RatedIff` | be/ecommerce/shop/facets.py:193-216 | a product passes a rating threshold if and only if it has an approved review and its approved ratings sum to at least the threshold per review |
| `Facets.InStockIff` | be/ecommerce/shop/facets.py:196-197 | untracked and positive stock are in stock, zero is not |
| `Facets.PriceFacetCounts` | be/ecommerce/shop/facets.py:283-297 | the grouping loop counts each band's products |
| `FacetLinks.LinkKeepsOthers` | be/ecommerce/shop/facets.py:365-374 | a link keeps every other parameter with its values and drops the page |
| `FacetLinks.CategoryLink` | be/ecommerce/shop/facets.py:386-395 | parsing a category link gives the selection with that slug toggled and nothing else changed, whatever repeated or unknown values the URL holds |
| `FacetLinks.PriceLink` | be/ecommerce/shop/facets.py:386-395 | the same for a price band |
| `FacetLinks.StockLink` | be/ecommerce/shop/facets.py:382-385 | parsing a stock link gives the selection with stock flipped |
| `FacetLinks.RatingLink` | be/ecommerce/shop/facets.py:376-381 | a rating link clears the facet if the URL has that text, else replaces it |
| `FacetLinks.SelectedRatingIsRemovedIff` | be/ecommerce/shop/facets.py:352-361 | clicking the selected rating removes it if and only if the URL spells it as the link does |
| `FacetLinks.SpacedRatingIsNotRemoved` | be/ecommerce/shop/facets.py:376-381 | a rating given as " 4" is selected and clicking four stars does not remove it |
| `FacetLinks.RatingTwiceIff` | be/ecommerce/shop/facets.py:376-381 | clicking a rating twice restores it if and only if it was selected by that text, or nothing was |
| `FacetLinks.TwiceRestores` | be/ecommerce/shop/facets.py:352-398 | clicking a category, price or stock link twice restores the selected sets |
| `FacetLinks.ParseIsWellFormed` | be/ecommerce/shop/facets.py:105-144 | a parsed selection is duplicate-free and of known values, whatever the query |
| `FacetLinks.BestRatingIsStep` | be/ecommerce/shop/facets.py:133-141 | the parsed rating is the largest step among the values that read as one |
| `FacetLinks.StockOnIs` | be/ecommerce/shop/facets.py:143 | only the last stock value counts, and only "in" selects anything |
| `FacetLinks.ParseOf` | be/ecommerce/shop/facets.py:116-144 | a whole query with unknown and repeated values parses to its known ones, with the highest known rating |
| `FacetLinks.ClearAllClears` | be/ecommerce/shop/facets.py:332-349 | "clear all" leaves no facet selected and keeps every other parameter but the page |
| `FacetLinks.CleanSlugs` | be/ecommerce/shop/facets.py:105-113 | the loop keeps known values in first-occurrence order without duplicates |
| `FacetLinks.ParseFacets` | be/ecommerce/shop/facets.py:116-144 | the parsing loops compute the specified selection |
| `FacetLinks.BuildFacetUrl` | be/ecommerce/shop/facets.py:352-398 | the copying loops build the specified link, whatever order the names come in |
| `Pages.NumPagesAgree` | be/ecommerce/shop/views/product_list_view.py:82-86 | the stand-in's page count is the paginator's: the least number, at least one, of pages that hold everything |
| `Pages.PageNumberIs` | be/ecommerce/shop/views/product_list_view.py:229-231 | no integer goes to page 1, a page that exists to itself, and every other number to the last page |
| `Pages.PagesTile` | be/ecommerce/shop/views/product_list_view.py:229-240 | the pages 1 to num_pages put end to end are the whole listing, each product once, in order |
| `Pages.NextIsReal` | be/ecommerce/shop/views/product_list_view.py:52-68 | has_next holds if and only if products follow the page; then the page is full and the next is not empty |
| `Pages.PreviousIsReal` | be/ecommerce/shop/views/product_list_view.py:49-62 | only page 1 has no previous page, and the page named as previous exists and is full |
| `Pages.WalkMeetsAll` | be/ecommerce/shop/views/product_list_view.py:64-68 | following next_page_number from any page meets every later page once and stops at the last |
| `CatalogCache.ListingShowsWanted` | be/ecommerce/shop/views/product_list_view.py:183-193 | an unsearched request is served the cut for its page of exactly the available products of its category page that its facets match, and the pages together are all of them |
| `CatalogCache.ListingShowsFound` | be/ecommerce/shop/views/product_list_view.py:183-193 | any request, searched or not, is served the cut for its page of exactly the products found among the available ones that fit its category page and facets, and the pages together are all of them |
| `CatalogCache.CardsAre` | be/ecommerce/shop/views/product_list_view.py:93-109 | a card carries its own product's id, name and price |
| `CatalogCache.FirstPageByDefault` | be/ecommerce/shop/views/product_list_view.py:180 | a visit that names no page, or no number, gets page 1 |
| `CatalogCache.AskOfIs` | be/ecommerce/shop/views/product_list_view.py:178-180 | what is computed is what the visit asked for: its category page, query, parsed facets and page |
| `CatalogCache.CategoryCountIsAdded` | be/ecommerce/shop/facets.py:255-280 | the count beside an unselected category is how many products the page behind its link has more than the selected categories have now, all of them when none is selected |
| `CatalogCache.PriceCountIsAdded` | be/ecommerce/shop/facets.py:283-297 | the same for a price band |
| `CatalogCache.RatingCountIsKept` | be/ecommerce/shop/facets.py:300-305 | the count beside a rating the URL does not have is the number of products on the page behind its link |
| `CatalogCache.StockCountIsKept` | be/ecommerce/shop/facets.py:308-310 | the same for stock when it is not selected |
| `CatalogCache.ClickedIsFirstPage` | be/ecommerce/shop/facets.py:373-374 | a facet link leads to page 1 of the same category page and query |
| `CatalogCache.KeyDeterminesAnswer` | be/ecommerce/shop/cache_keys.py:36-79 | requests with one key have one listing and one set of counts |
| `CatalogCache.KeysMeetIff` | be/ecommerce/shop/cache_keys.py:36-51 | two requests share a key if and only if they ask for the same thing up to the order of their multi-selects |
| `CatalogCache.LiveKeysAreRegistered` | be/ecommerce/shop/cache_keys.py:87-118 | over every run each listing or facet key in the cache is in the registry |
| `CatalogCache.RegistryListsOnce` | be/ecommerce/shop/cache_keys.py:96-101 | over every run the registry lists no key twice |
| `CatalogCache.CacheIsTransparent` | be/ecommerce/shop/views/product_list_view.py:170-240 | after any run of visits, expiries and signalled writes a request is answered as if nothing were cached |
| `CatalogCache.StalenessIsBounded` | be/ecommerce/shop/cache_keys.py:21-23 | with writes that send no signal anywhere, every listing and count served is the fresh answer of a state of the preceding 300 seconds, the category list of the preceding 600 |
| `CatalogCache.RecentlyFreshIsAnAnswer` | be/ecommerce/shop/views/product_list_view.py:199-240 | a recently fresh value is the very answer the request would have got at that moment |
| `CatalogCache.RecentCategories` | be/ecommerce/shop/views/product_list_view.py:172-175 | a recently fresh category list is the one of a moment in the preceding 600 seconds |
| `CatalogCache.HitServesStored` | be/ecommerce/shop/views/product_list_view.py:200-212 | a live entry is served as stored and nothing changes |
| `CatalogCache.MissStoresComputed` | be/ecommerce/shop/views/product_list_view.py:199-204 | a miss serves what was computed and keeps it for 300 seconds, 600 for the category list, under a registered key |
| `CatalogCache.EventsDo` | be/ecommerce/shop/cache_keys.py:104-118 | a visit fills the cache; a signalled write drops exactly the registered keys and the category list and empties the registry; a silent write changes the database alone |
| `CatalogCache.Catalog.RegisterCacheKey` | be/ecommerce/shop/cache_keys.py:87-101 | afterwards the key is in the registry and no listed key is lost; a registry without repeats stays so, a registry that lists every cached key still does, and nothing else changes |
| `CatalogCache.Catalog.Fetch` | be/ecommerce/shop/views/product_list_view.py:199-204 | a live entry is returned unchanged; a miss registers the key and stores the computed value with its TTL |
| `CatalogCache.Catalog.ProductList` | be/ecommerce/shop/views/product_list_view.py:170-255 | the view in its own order of cache calls is the specified visit, the 404 after the category list included |
| `CatalogCache.Catalog.OnChange` | be/ecommerce/shop/signals.py:47-74 | a signalled write empties the cache, given that its keys are registered |
| `EmailTokens.VerificationHistory` | be/ecommerce/accounts/verification.py:35-92 | over every run secrets are answered as the history says, none is accepted twice, a user has at most one unverified row, and is_email_verified holds if and only if some accepted link was for an address equal, ignoring case, to the current one |
| `EmailTokens.AcceptedWhenLatest` | be/ecommerce/accounts/verification.py:55-74 | every acceptance happened at a verification of the user's latest link, unused and not expired |
| `EmailTokens.AnswerFromHistory` | be/ecommerce/accounts/verification.py:61-74 | the table answers ok or expired if and only if the secret is some user's latest unused link, by its expiry, and invalid otherwise |
| `EmailTokens.IssueDoes` | be/ecommerce/accounts/verification.py:35-52 | issuing records one token for the user's address of that moment with the full lifetime, adds its unverified row, and removes exactly the user's other unverified rows |
| `EmailTokens.LinkLife` | be/ecommerce/accounts/verification.py:61-74 | a fresh link answers ok if and only if it is used within its lifetime, and expired after; once accepted the address counts as verified and the link is invalid ever after |
| `EmailTokens.EventsDo` | be/ecommerce/accounts/verification.py:35-74 | what an issue, a verification, a change of address and the passing of time do to the tables |
| `EmailTokens.SameAddressIff` | be/ecommerce/accounts/verification.py:92-95 | addresses match if and only if they have the same characters up to the case of A to Z |
| `EmailTokens.RunsAreConsistent` | be/ecommerce/accounts/verification.py:35-74 | in every reachable state the rows are exactly what issued and accepted links leave |
| `EmailTokens.VerifiedIffAccepted` | be/ecommerce/accounts/verification.py:77-92 | the table query agrees with the history of acceptances |
| `EmailTokens.EmailVerification.Issue` | be/ecommerce/accounts/verification.py:35-52 | replaces the user's unverified rows by one for the current address; the returned secret is the outstanding one |
| `EmailTokens.EmailVerification.Verify` | be/ecommerce/accounts/verification.py:55-74 | classifies the secret as the history does and marks the row on ok only |
| `EmailTokens.EmailVerification.IsVerified` | be/ecommerce/accounts/verification.py:77-92 | answers yes if and only if an acceptance was for the current address |
| `CartMoney.MoneyPipeline` | be/ecommerce/payment/views/payment_process_view.py:32-48 | for a cart filled by any adds, overrides and removals at prices in cents, Stripe's charge, 100 times the order's total before discount and 100 times the cart's total are one number, and the quantities sum to len(cart) |
| `CartMoney.ChargedOrderAgrees` | be/ecommerce/payment/refunds.py:103-104 | the order made from any cart at prices in cents, once charged what Stripe was asked to charge, starts with its ledger and Stripe's in agreement and a total in whole cents |
| `CartMoney.ChargedIsTotalIff` | be/ecommerce/payment/views/payment_process_view.py:40 | Stripe never charges more than the total, and exactly the total if and only if every price with a quantity is in whole cents |
| `CartMoney.OrderKeepsTheTotal` | be/ecommerce/orders/models/order_model.py:111-115 | the order's items have the cart's total and its number of pieces |
| `CartMoney.KeysAreDistinct` | be/ecommerce/cart/utils/cart.py:20-29 | two lines share a key if and only if they are the same product and variant |
| `CartMoney.KeyNamesProduct` | be/ecommerce/cart/utils/cart.py:37-43 | the part of a key before the colon is the line's product id |
| `CartMoney.CartKeyIs` | be/ecommerce/cart/utils/cart.py:20-29 | a plain line's key is the product id, a variant line's the product id, a colon and the variant id |
| `CartMoney.DigitsRead` | be/ecommerce/cart/utils/cart.py:27-29 | an id is written in decimal: it reads back as the same number and has no leading zero |
| `CartMoney.FilledIsProper` | be/ecommerce/cart/utils/cart.py:71-110 | after any operations each line is listed once, with its own variant and a price in cents |
| `CartMoney.AddDoes` | be/ecommerce/cart/utils/cart.py:71-98 | one more add to any cart adds to the line's quantity, or replaces it on override; an existing line keeps price and place, a new one comes last at the variant's own price if any, else the product's; other lines stay |
| `CartMoney.RemoveDoes` | be/ecommerce/cart/utils/cart.py:100-110 | one more removal takes exactly that line out and keeps the others in their order |
| `CartMoney.UnitPriceIs` | be/ecommerce/shop/models/product_variant_model.py:54-56 | a variant costs its own price if it has one, else the product's |
| `CartMoney.ItemOfIs` | be/ecommerce/orders/views/order_create_view.py:23-33 | an order item takes the line's product, price and quantity, and its variant as long as the variant exists |
| `CartMoney.OneLineCart` | be/ecommerce/payment/views/payment_process_view.py:32-48 | a one-line cart counts its quantity, costs price times quantity and is charged cents times quantity |
| `CartMoney.Cart.Add` | be/ecommerce/cart/utils/cart.py:71-98 | on the string-keyed dictionary: adds to, or overrides, exactly that line; an existing line keeps its price and its place |
| `CartMoney.Cart.Remove` | be/ecommerce/cart/utils/cart.py:100-110 | removes exactly that line, and nothing when there is none |
| `CartMoney.Cart.GetTotalPrice` | be/ecommerce/cart/utils/cart.py:112-113 | the loop over the dictionary gives the basket's total |
| `CartMoney.Cart.Length` | be/ecommerce/cart/utils/cart.py:61-66 | the loop over the dictionary gives the number of pieces |
| `CartMoney.Cart.CreateItems` | be/ecommerce/orders/views/order_create_view.py:22-34 | one item per line in order and an emptied cart; if a product is gone, the items before it and an unchanged cart |
| `CartMoney.StripeLineItems` | be/ecommerce/payment/views/payment_process_view.py:32-48 | the appending loop builds one line item per order item, in cents |
| `Redaction.RedactAt` | be/ecommerce/ecommerce/logging.py:80-97 | at every position of every nested value: below no sensitive key kind, keys, length and leaf are unchanged; under a sensitive key stands the mask and nothing below it |
| `Redaction.SensitiveIff` | be/ecommerce/ecommerce/logging.py:64-77 | a key is sensitive if and only if it ends in one of the twenty listed names, in any letter case |
| `Redaction.ValueUnderKey` | be/ecommerce/ecommerce/logging.py:89-93 | the value under a key with such an ending becomes "***", under any other key it is redacted by itself |
| `Redaction.PasswordIsMasked` | be/ecommerce/ecommerce/logging.py:89-93 | a dictionary with an id and a key ending in "PassWord" keeps the id and hides the other value, at any path |
| `Redaction.PromotedIff` | be/ecommerce/ecommerce/logging.py:121-152 | which record attributes are written out: neither standard, nor reserved, nor starting with an underscore, nor the request id |
| `Redaction.DumpOneIs` | be/ecommerce/ecommerce/logging.py:153-165 | a sensitive attribute is written as "***", any other as its redacted value, or a marker if that does not dump |
| `Redaction.PathNeverMatters` | be/ecommerce/ecommerce/logging.py:74-77 | a dotted path is sensitive if and only if its last key is |
| `Redaction.PathIsIrrelevant` | be/ecommerce/ecommerce/logging.py:80-101 | redacting under any path gives the same value |
| `Redaction.RedactMasks` | be/ecommerce/ecommerce/logging.py:80-97 | afterwards every value under a sensitive key, at any depth, is the mask |
| `Redaction.RedactIsIdempotent` | be/ecommerce/ecommerce/logging.py:80-97 | redacting again changes nothing, and a value is left alone if and only if it is masked already |
| `Redaction.PromoteExtras` | be/ecommerce/ecommerce/logging.py:146-165 | the formatter's loop equals one redaction of all promoted extras together, with undumpable values marked |
| `Retention.IncrementalRetention` | docker/backup/retain.py:52-62 | keeping again after more entries arrive is keeping once at the end, ties included |
| `Retention.IncrementalRetentionIff` | docker/backup/retain.py:52-62 | for any integer keep_n that law holds if and only if it is not negative, or there was nothing to rotate early, or nothing survives at all |
| `Retention.NegativeKeepLosesBackup` | docker/backup/retain.py:59-61 | with keep_n -1 the newest of two backups is kept at once, but lost when the older one was rotated first |
| `Retention.SelectionPartitions` | docker/backup/retain.py:52-62 | keep and delete together are the entries reordered, keep is as long as asked, both are newest first, and nothing deleted is newer than anything kept |
| `Retention.SelectionCuts` | docker/backup/retain.py:59-61 | for any keep_n keep is the front of the sorted list and delete the rest; a negative keep_n deletes that many of the oldest |
| `Retention.NewestFirstSorts` | docker/backup/retain.py:59 | the order is the stable descending sort: same entries, ordered, equal timestamps in their original order |

## Left out

- HTTP, templates, forms, sessions, CSRF, email sending, PDF, Celery, Prometheus and the Stripe SDK; only their outcomes remain (an event delivered, a refund accepted or refused, a dispatch recorded).
- Webhook signature checks, and sha256 and md5 as such: they are taken as injective, and issued secrets as fresh.
- Fraud rules: evaluation is any score and notes, or an error.
- Analyst edits of orders, stock and statuses in admin forms, and restocking while orders are decremented.
- Concurrent refund calls, a crash between Stripe's refund and the local UPDATE, events that arrive out of order in the ledger agreement (the metric covers them), and the fallback for an order row deleted meanwhile.
- Refunds.LedgersAgree: for undiscounted orders charged their total, because checkout never sets a discount and charges without it; discounted orders are in `Refunds.DiscountedFullRefundAgreesIff`.
- RateLimit.RetryAfterExact: for requests handled at one instant; between the cache calls of overlapping requests the deadline and counter keys may part, and then only RateLimit.RetryAfter's bounds hold.
- CatalogCache.CacheIsTransparent: for whole requests one after another; a write during a request may leave an answer computed before it, which the code does not exclude. Empty category slugs do not occur in routes.
- CatalogCache.Catalog.OnChange: cached images and thumbnail clean-up are not part of the model.
- EmailTokens.VerificationHistory: the local regime; social login and the case folding of letters outside ASCII are not modelled.
- CartMoney.MoneyPipeline: products still present and prices of two decimals, as their columns have; coupons only change displayed totals.
- Redaction.PromoteExtras: dictionary keys are strings, named tuples are tuples, and the exception text is not part of the model.
- Redis evicting keys under memory pressure, limits changed by operators in mid-window, and the choice of the client's address.
- Search ranking, `int()` on a string and the timestamp pattern are parameters; percent-encoding of query strings is taken as a round trip, and listing order as total.
- SQLite's rounding of ties in decimal columns, and the column's limit of ten digits.
- The wish list, recommendations, tracking, seeds, migrations, settings and browser code.
