# Models of the BigCommerce connector

Dafny models of the stateful and reconciling parts of the Odoo / BigCommerce connector, with proofs
of what those parts promise. Every module is one component:

- `OrderUpdate` and `OrderUpdateLines`: the in-place update of a confirmed order against clearing and
  refilling it, by its total and line by line.
- `DepositLedger`: deposits applied to invoices through entries, and the three ways to undo that.
- `VariantOptions`: the plan that makes the options of a product on the store equal to the local ones.
- `CategoryForest`: the import of a category forest as nested create and link commands.
- `PricelistExport`: the pricelist export with its 404 fallback and chunked upserts, against a store
  that may refuse, lose or half-apply any request.
- `JobQueue` and `JobCodec`: attempts, retries and de-duplication of background jobs, and the JSON
  encoding of their arguments (values as in section 3 of RFC 8259).
- `ShipmentAllocation` and `ServiceTransfer`: greedy allocation of shipped quantities, transfers of
  services with backorders.
- `KitClosure`, `AuditFeed` and `InventoryClamp`: which products a stock change concerns, which
  channels hear of it, and which quantity they are told.
- `OrderTotals`: assembly, unit conversion and totals of an imported order.
- `SkuGrouping`: which alternate SKU goes into which listing.
- `Listing`: the life of one listing and its product on the store.
- `Wrappers`: shared outcome types.

Records that the connector updates in place are classes; each of their methods is proved equal to a
function on plain values, and the lemmas are about those functions. Replies of the store are
arguments or arbitrary choices, clocks are arguments. Money is an exact number, quantities are exact
numbers in one unit of measure.

Where the behaviour does not do what one would expect of it, the model follows the behaviour, shows
an input, and states exactly when the expectation holds:

- an in-place update forgets a discount that comes back after an update had set it to zero
  (`OrderUpdate.ZeroedDiscountIsLost`), a discount that joins a lone coupon
  (`OrderUpdate.DiscountJoinsCoupon`), and the first of two taxes that come to one tax line
  (`OrderUpdate.SecondTaxReplacesFirst`); exactly when the total is right nevertheless is
  `OrderUpdate.SameTotalIff`;
- an order that holds a discount and a coupon refuses every update with a discount
  (`OrderUpdate.DiscountWithCouponRaises`, `OrderUpdate.PlanSucceedsIff`);
- a label called `id` breaks the option export (`VariantOptions.IdLabelKeepsOption`,
  `VariantOptions.ConvergesIffNothingCalledId`);
- the category import follows a category that moved, but what is wrong below a linked category stays
  wrong: a new category there is not created (`CategoryForest.BelowLinkLost`,
  `CategoryForest.NewCategoryEmitted`), a deleted one stays (`CategoryForest.StaleChildStays`,
  `CategoryForest.ImportRebuildsIff`, `CategoryForest.ImportExactIff`);
- serialization failures are retried without regard to the limit (`JobQueue.LimitEscaped`,
  `JobQueue.LimitHoldsIff`), and a requeued job can stand beside its successor
  (`JobQueue.RequeuedBesideSuccessor`, `JobQueue.UniqueIff`);
- a dictionary with a reserved `_type` does not survive the queue (`JobCodec.RoundTripIff`);
- two items of one product in a shipment overwrite each other (`ShipmentAllocation.ShipmentConservesIff`);
- a sync for listed products, or for one of several channels, forgets other changes
  (`AuditFeed.KeepsIffCareful`); the connector makes such calls when it publishes a listing
  (product_channel.py:783) and when it repeats a failed export (omni_log.py:196);
- an alternate SKU without a variant can stop an export (`SkuGrouping.ExportFailsIff`);
- deleting a transfer with done quantities leaves the delivered quantity behind
  (`ServiceTransfer.DeleteKeepsIff`), and a short line with a draft move stays short when the order is
  confirmed (`ServiceTransfer.GenerateCoversIff`);
- a minimum quantity can offer more than there is (`InventoryClamp.NoOversellIff`);
- a failed publication can leave a product on the store (`Listing.LateFailureStrays`,
  `Listing.RunStraysIff`), and a refused post of a listing that has a store ID ends published
  (`Listing.PublishedMeansAcceptedIff`);
- a listing is shown as published although the store refused some of its variants
  (`Listing.VariantRepliesForgotten`, `Listing.PublishedDespiteRefusalIff`);
- publishing an updated listing calls a method the record does not have and always raises
  (`Listing.PublishActsIff`).

`dafny verify dfyconfig.toml` checks the whole project.

## Model

| member | source | states |
|---|---|---|
| `OrderUpdate.SaleOrder.ProcessUpdateOrderLine` | bigCommerce/multichannel_order/models/sale_order.py:1033-1077 | the commands an in-place update plans for a confirmed order, or the singleton error |
| `OrderUpdate.SaleOrder.MatchProducts` | bigCommerce/multichannel_order/models/sale_order.py:1046-1070 | the commands of the first loop, and exactly the lines some incoming line matches |
| `OrderUpdate.SaleOrder.UpdateInQueueJob` | bigCommerce/multichannel_order/models/sale_order.py:1092-1124 | a confirmed order is updated in place, any other is cleared and refilled; an error changes nothing |
| `OrderUpdate.InPlaceTotal` | bigCommerce/multichannel_order/models/sale_order.py:1033-1077 | for every order and update: the total afterwards is that of a refilled order plus the drift of the matched lines |
| `OrderUpdate.RefillTotal` | bigCommerce/multichannel_order/models/sale_order.py:1092-1124 | clearing and refilling gives the incoming total, whatever was on the order |
| `OrderUpdate.SameTotal` | bigCommerce/multichannel_order/models/sale_order.py:1033-1077 | one-to-one matching, prices present and quantity one where none is sent: both forms end with the same total |
| `OrderUpdate.SameTotalIff` | bigCommerce/multichannel_order/models/sale_order.py:1033-1077 | for everything the importer builds (no product is sold both as a line and as a discount), the totals agree if and only if the forgotten charges are worth as much as the forgotten discounts and coupons; a value is forgotten when a later one goes to the same stored line, or when it has no quantity and its line had been set to zero |
| `OrderUpdate.SameTotalIffNothingLost` | bigCommerce/multichannel_order/models/sale_order.py:1033-1077 | where no charge with an amount is forgotten, or no discount is: the totals agree if and only if nothing with an amount is forgotten |
| `OrderUpdate.LostAmounts` | bigCommerce/multichannel_order/models/sale_order.py:1033-1077 | the total after an update of what the importer builds: the incoming total without what is forgotten |
| `OrderUpdate.DriftOfLastHit` | bigCommerce/multichannel_order/models/sale_order.py:1046-1068 | a line that several incoming lines match keeps the last: it is short of all before it, and off by what a missing quantity of the last costs |
| `OrderUpdate.DiscountJoinsCoupon` | bigCommerce/multichannel_order/models/sale_order.py:1046-1068 | a discount that is added to an order with a lone coupon is lost: the in-place total is minus the coupon, the refilled one takes both off |
| `OrderUpdate.SecondTaxReplacesFirst` | bigCommerce/multichannel_order/models/sale_order.py:1051-1068 | two taxes that come to an order with one tax line: only the second stays |
| `OrderUpdate.DriftOfSingleMatch` | bigCommerce/multichannel_order/models/sale_order.py:1050-1068 | a line matched once drifts only by a missing quantity, and by exactly how much |
| `OrderUpdate.ZeroedDiscountIsLost` | bigCommerce/multichannel_order/models/sale_order.py:1072-1073 | on any order: an update that leaves a discount or coupon line out and a later one that brings it back end at the refilled total minus its amount, everything else being restored |
| `OrderUpdate.UpdateKeepsLine` | bigCommerce/multichannel_order/models/sale_order.py:1033-1077 | an update keeps every stored line on a well-formed order, the unmatched ones with quantity zero |
| `OrderUpdate.LoneDiscountIsLost` | bigCommerce/multichannel_order/models/sale_order.py:1051-1073 | the shortest case, both updates: an order of one discount line, dropped and brought back, totals zero |
| `OrderUpdate.MatchedOrZeroed` | bigCommerce/multichannel_order/models/sale_order.py:1072-1073 | every old product line is matched or set to zero, never both |
| `OrderUpdate.ZeroedIffUnmatched` | bigCommerce/multichannel_order/models/sale_order.py:1072-1073 | a line is set to zero exactly when it has a product and nothing incoming matches it |
| `OrderUpdate.PlanSucceedsIff` | bigCommerce/multichannel_order/models/sale_order.py:1046-1070 | the update raises exactly when a priced incoming line matches two lines of the order |
| `OrderUpdate.DiscountWithCouponRaises` | bigCommerce/multichannel_order/models/sale_order.py:1051-1068 | any order with two lines of the product of an incoming discount or tax line cannot be updated in place, say a discount beside a coupon, or two taxes |
| `OrderUpdateLines.WrittenByChannelId` | bigCommerce/multichannel_order/models/sale_order.py:1048-1068 | a line of the channel that the order holds under its ID: exactly that line gets its quantity, price and name; nothing is created for it |
| `OrderUpdateLines.ResentLine` | bigCommerce/multichannel_order/models/sale_order.py:1048-1068 | the shortest case: an order of one line that is sent again ends with that line, rewritten, and no other new one |
| `OrderUpdateLines.WrittenByProduct` | bigCommerce/multichannel_order/models/sale_order.py:1051-1068 | a discount, fee or tax without an ID: exactly the line of its product gets its values |
| `OrderUpdateLines.WrittenByCode` | bigCommerce/multichannel_order/models/sale_order.py:1055-1061 | a coupon without an ID: exactly the line of its product and code gets its values |
| `OrderUpdateLines.NullPriceLeaves` | bigCommerce/multichannel_order/models/sale_order.py:1060-1067 | a value without a price leaves its line alone, and keeps it from being set to zero |
| `OrderUpdateLines.GoneIsZeroed` | bigCommerce/multichannel_order/models/sale_order.py:1072-1073 | a product line that nothing of the channel stands for, by ID, product or code, ends at quantity zero |
| `OrderUpdateLines.DisplayStays` | bigCommerce/multichannel_order/models/sale_order.py:1072-1073 | sections and notes of the order stay |
| `OrderUpdateLines.ConcernsNoOther` | bigCommerce/multichannel_order/models/sale_order.py:1046-1068 | leaving a value out changes no stored line but those with its ID, or its product and code |
| `OrderUpdateLines.NewIsCreated` | bigCommerce/multichannel_order/models/sale_order.py:1069-1070 | a product line that the order does not hold is created with its values, one unit where no quantity is sent |
| `OrderUpdateLines.NewDisplayIsCreated` | bigCommerce/multichannel_order/models/sale_order.py:1075-1076 | a section or note whose name is new is created |
| `OrderUpdateLines.NoSecondDisplay` | bigCommerce/multichannel_order/models/sale_order.py:1075-1076 | no section or note is created beside a stored one of the same name |
| `OrderUpdateLines.RaisesIff` | bigCommerce/multichannel_order/models/sale_order.py:1046-1068 | an update raises exactly when a priced value shares its ID, or its product and code, with two stored lines |
| `OrderUpdateLines.RefilledLines` | bigCommerce/multichannel_order/models/sale_order.py:1092-1124 | an order that is not confirmed ends with exactly the lines of the channel, in order |
| `DepositLedger.Ledger.Assign` | bigCommerce/account_partner_deposit/models/account_move.py:117-223 | applying a deposit: one posted entry, both sides reconciled, nothing when there is nothing to apply |
| `DepositLedger.Ledger.ReconcileDeposits` | bigCommerce/account_partner_deposit/models/account_move.py:231-243 | the posted deposits of the matching direction are applied one by one |
| `DepositLedger.Ledger.RemovePartial` | bigCommerce/account_partner_deposit/models/account_move.py:129-147 | removing either partial deletes the entry behind it |
| `DepositLedger.Ledger.ResetInvoice` | bigCommerce/account_partner_deposit/models/account_move.py:89-115 | resetting an invoice takes back and deletes its deposit entries |
| `DepositLedger.Ledger.ResetPayment` | bigCommerce/account_partner_deposit/models/account_payment.py:65-73 | resetting a deposit takes back and deletes all its entries |
| `DepositLedger.RunConserves` | bigCommerce/account_partner_deposit/models/account_move.py:89-243 | over every run: residual plus live entries is the amount of each deposit and (with other payments) of each invoice, no residual is negative, every entry balances |
| `DepositLedger.StepKeepsSettled` | bigCommerce/account_partner_deposit/models/account_move.py:89-243 | every step keeps the books consistent, with both sides of every live entry fully reconciled |
| `DepositLedger.ReconcileAppliesMin` | bigCommerce/account_partner_deposit/models/account_move.py:231-243 | reconciling a list of deposits applies exactly the smaller of the invoice residual and what its posted deposits of the other side hold, draining them in order |
| `DepositLedger.ReconcileDrains` | bigCommerce/account_partner_deposit/models/account_move.py:231-243 | afterwards the invoice is paid, or every posted deposit of the list on the other side is used up; all other deposits keep what they hold |
| `DepositLedger.ReconcileShares` | bigCommerce/account_partner_deposit/models/account_move.py:231-243 | what each single deposit of the list gives |
| `DepositLedger.AssignKeepsSettled` | bigCommerce/account_partner_deposit/models/account_move.py:152-223 | an application keeps the sums and creates a balanced entry on the right accounts |
| `DepositLedger.RemoveUndoes` | bigCommerce/account_partner_deposit/models/account_move.py:129-147 | removing a partial gives the deposit and the invoice exactly the entry amount back |
| `DepositLedger.AssignThenRemove` | bigCommerce/account_partner_deposit/models/account_move.py:117-147 | applying and removing restores every document and leaves the same entries |
| `DepositLedger.ResetInvoiceUndoes` | bigCommerce/account_partner_deposit/models/account_move.py:89-115 | a reset invoice is whole again, exactly its entries are gone, and every deposit got back what they had taken |
| `DepositLedger.ResetPaymentUndoes` | bigCommerce/account_partner_deposit/models/account_payment.py:65-73 | a reset deposit is whole again, exactly its entries are gone, and every invoice got back what they had paid |
| `VariantOptions.Exporter.BuildBulkActions` | bigCommerce/multichannel_bigcommerce/utils/bigcommerce_product_helper.py:208-276 | the planned actions are the difference between local lines and remote attributes, as four sets |
| `VariantOptions.Exporter.ExecuteBulkActions` | bigCommerce/multichannel_bigcommerce/utils/bigcommerce_product_helper.py:278-298 | deletes, creates, updates and value deletes are executed in that order |
| `VariantOptions.Exporter.DoExport` | bigCommerce/multichannel_bigcommerce/utils/bigcommerce_product_helper.py:203-206 | planning and executing against the fetched attributes |
| `VariantOptions.ConvergesIffClean` | bigCommerce/multichannel_bigcommerce/utils/bigcommerce_product_helper.py:208-298 | the export leaves the store equal to the local lines and a second plan empty, if and only if the input is clean (no value or kept label called `id`, deletions aim at the removed options) |
| `VariantOptions.CleanIffNothingCalledId` | bigCommerce/multichannel_bigcommerce/utils/bigcommerce_product_helper.py:382-391 | where value IDs differ from option IDs, clean means that no local value and no store label is called `id` |
| `VariantOptions.ConvergesIffNothingCalledId` | bigCommerce/multichannel_bigcommerce/utils/bigcommerce_product_helper.py:208-298 | then the export converges if and only if nothing, local or on the store, is called `id` |
| `VariantOptions.CleanMirrors` | bigCommerce/multichannel_bigcommerce/utils/bigcommerce_product_helper.py:208-298 | on a clean input the option-to-labels map of the store becomes the local one |
| `VariantOptions.MirrorNeedsClean` | bigCommerce/multichannel_bigcommerce/utils/bigcommerce_product_helper.py:208-298 | a mirror can only come out of a clean input |
| `VariantOptions.MirrorPlan` | bigCommerce/multichannel_bigcommerce/utils/bigcommerce_product_helper.py:208-276 | of a mirror, planning again yields nothing, unless a local value is called `id` |
| `VariantOptions.KeptOption` | bigCommerce/multichannel_bigcommerce/utils/bigcommerce_product_helper.py:242-276 | an option that is kept ends with exactly the local labels |
| `VariantOptions.NamesAfter` | bigCommerce/multichannel_bigcommerce/utils/bigcommerce_product_helper.py:214-240 | surviving and added names, each once |
| `VariantOptions.IdLabelKeepsOption` | bigCommerce/multichannel_bigcommerce/utils/bigcommerce_product_helper.py:382-391 | a store label `id` sends the deletion of its option to the wrong key |
| `CategoryForest.ExtractChildren` | bigCommerce/multichannel_bigcommerce/utils/bigcommerce_category_helper.py:177-211 | the nested commands of one category: a clear, then a link or a creation per child |
| `CategoryForest.ExtractTree` | bigCommerce/multichannel_bigcommerce/utils/bigcommerce_category_helper.py:173-215 | new and existing roots, collected separately and in order |
| `CategoryForest.NewCategoryEmitted` | bigCommerce/multichannel_bigcommerce/utils/bigcommerce_category_helper.py:177-215 | a new category is created exactly once if every ancestor strictly between it and its root is new, and not at all otherwise |
| `CategoryForest.ExistingNotEmitted` | bigCommerce/multichannel_bigcommerce/utils/bigcommerce_category_helper.py:185-196 | a category that has a record is never created |
| `CategoryForest.Registry.ImportTree` | bigCommerce/multichannel_bigcommerce/models/product_channel_category.py:91-106 | the records after executing the commands of the new and the existing roots |
| `CategoryForest.Registry.Execute` | bigCommerce/multichannel_bigcommerce/utils/bigcommerce_category_helper.py:183-196 | the nested clear, link and creation commands on the records |
| `CategoryForest.ImportRebuildsIff` | bigCommerce/multichannel_bigcommerce/utils/bigcommerce_category_helper.py:173-215 | with any records before: afterwards every root and category of the channel has a record with its name and its parent, if and only if each existing root is freed from where it hung, and each existing category below it already had its name and what is below it |
| `CategoryForest.ImportWithDetailsIff` | bigCommerce/multichannel_bigcommerce/models/product_channel_category.py:91-111 | names and parents after the import of details has written the names: only what is below a linked category matters |
| `CategoryForest.BelowHoldsIff` | bigCommerce/multichannel_bigcommerce/utils/bigcommerce_category_helper.py:183-196 | names and parents of everything below any one category |
| `CategoryForest.ImportExactIff` | bigCommerce/multichannel_bigcommerce/utils/bigcommerce_category_helper.py:173-215 | every category ends with its name, its parent and exactly the children of the channel, if and only if in addition every record that is not of the channel hung below a root with a record, or below no category of the channel at all |
| `CategoryForest.ImportExactWithDetailsIff` | bigCommerce/multichannel_bigcommerce/models/product_channel_category.py:91-111 | the same after the import of details |
| `CategoryForest.ExactForestIff` | bigCommerce/multichannel_product/models/product_channel_category.py:37-39 | children are exactly the channel's when every category is in its place and nothing else hangs below one |
| `CategoryForest.StaleChildStays` | bigCommerce/multichannel_bigcommerce/utils/bigcommerce_category_helper.py:185-203 | a category that was deleted on the channel stays below a linked one |
| `CategoryForest.ClearsFirst` | bigCommerce/multichannel_bigcommerce/utils/bigcommerce_category_helper.py:200-206 | the clears of all roots may be done before everything else |
| `CategoryForest.MovedIsFollowed` | bigCommerce/multichannel_product/models/product_channel_category.py:37-39 | a category that moved to another parent is moved, and leaves the old one |
| `CategoryForest.BelowLinkLost` | bigCommerce/multichannel_bigcommerce/utils/bigcommerce_category_helper.py:185-187 | a new category below a linked one is missing afterwards |
| `CategoryForest.FreshRecords` | bigCommerce/multichannel_bigcommerce/models/product_channel_category.py:91-106 | an import into an empty database rebuilds every forest |
| `CategoryForest.FreshImportRebuilds` | bigCommerce/multichannel_bigcommerce/utils/bigcommerce_category_helper.py:173-215 | with no existing records the commands rebuild the input forest exactly |
| `CategoryForest.FlattenKeepsIds` | bigCommerce/multichannel_bigcommerce/models/product_channel_category.py:80-86 | the flattened tree holds every category as often as the tree does |
| `PricelistExport.Workflow.DoExport` | bigCommerce/multichannel_bigcommerce/utils/bigcommerce_pricelist_helper.py:354-372 | it ends well exactly if the pricelist request that decided and every request on rules and assignments got a good reply, and then all of them were made, the store equals the local pricelist and need-to-export is cleared; the in-progress flag always ends off |
| `PricelistExport.Workflow.Attempt` | bigCommerce/multichannel_bigcommerce/utils/bigcommerce_pricelist_helper.py:357-361 | the three exports in order, stopping at the first bad reply, which decides how it ends; success means the store holds exactly the local list |
| `PricelistExport.Workflow.ExportPricelist` | bigCommerce/multichannel_bigcommerce/utils/bigcommerce_pricelist_helper.py:383-396 | PUT for an exported list, followed by a POST exactly after a readable 404, and POST otherwise; the last reply decides the outcome, and its ID is saved on success only |
| `PricelistExport.Workflow.EnsureResponseOk` | bigCommerce/multichannel_bigcommerce/utils/bigcommerce_pricelist_helper.py:412-419 | which replies raise the HTTPError, and what is logged |
| `PricelistExport.Workflow.ExportRules` | bigCommerce/multichannel_bigcommerce/utils/bigcommerce_pricelist_helper.py:294-303 | rules are cleared first; the result is the fold of the chunks that went through |
| `PricelistExport.Workflow.ExportChunks` | bigCommerce/multichannel_bigcommerce/utils/bigcommerce_pricelist_helper.py:299-302 | after a failing chunk the remote rules are the last-wins fold of exactly the earlier chunks (and of that chunk if it took effect without a success reply) |
| `PricelistExport.Workflow.ExportAssignments` | bigCommerce/multichannel_bigcommerce/utils/bigcommerce_pricelist_helper.py:334-341 | success means exactly the local customer groups are assigned |
| `PricelistExport.PostsIff` | bigCommerce/multichannel_bigcommerce/utils/bigcommerce_pricelist_helper.py:383-395 | one POST if the list was never exported or its PUT got a readable 404, and none otherwise |
| `PricelistExport.ChunksPartition` | bigCommerce/multichannel_bigcommerce/utils/bigcommerce_pricelist_helper.py:305-308 | chunks lose nothing, keep the order and respect the limit |
| `PricelistExport.ChunkPrefix` | bigCommerce/multichannel_bigcommerce/utils/bigcommerce_pricelist_helper.py:305-308 | the first k chunks are the first k * n rules |
| `PricelistExport.LastWins` | bigCommerce/multichannel_bigcommerce/utils/bigcommerce_pricelist_helper.py:299-300 | the last record of a key wins |
| `PricelistExport.OthersKept` | bigCommerce/multichannel_bigcommerce/utils/bigcommerce_pricelist_helper.py:299-300 | keys that are not sent keep what they had |
| `JobQueue.Job.Perform` | bigCommerce/queue_job/job.py:499-523 | what one attempt does to the retry count, and how it ends |
| `JobQueue.Job.GetRetrySeconds` | bigCommerce/queue_job/job.py:685-700 | the wait before the next attempt |
| `JobQueue.RetrySecondsMeaning` | bigCommerce/queue_job/job.py:685-700 | the wait is that of the greatest retry count reached, or the default |
| `JobQueue.Job.Postpone` | bigCommerce/queue_job/job.py:702-713 | a postponed job gets an eta and keeps its message |
| `JobQueue.Job.SetPending` | bigCommerce/queue_job/job.py:649-657 | back to pending, with or without a reset of the retry count |
| `JobQueue.StoreThenLoad` | bigCommerce/queue_job/job.py:258-305 | storing and loading gives every field back, empty texts as unset |
| `JobQueue.Runner.RunJob` | bigCommerce/queue_job/controllers/main.py:38-107 | what one run by the controller leaves in the row, for every ending of the function and of the commits before and after it |
| `JobQueue.RunEnds` | bigCommerce/queue_job/controllers/main.py:38-107 | how one run of a pending job ends: done, failed or pending, by what its function and the commits did, and what it does to the retry count |
| `JobQueue.DoneRow` | bigCommerce/queue_job/controllers/main.py:32-36 | what a job that is done leaves in its row |
| `JobQueue.FailedRow` | bigCommerce/queue_job/controllers/main.py:96-107 | what a failed job leaves: the traceback, and the result only if its function had returned |
| `JobQueue.PostponedRow` | bigCommerce/queue_job/controllers/main.py:71-94 | what a postponed job leaves, and when it runs again: after five seconds, the seconds asked for, or those of the pattern |
| `JobQueue.RequeuedRow` | bigCommerce/queue_job/models/queue_job.py:213-236 | what a requeued job keeps; jobs that are not pending are not run |
| `JobQueue.Runner.RunPending` | bigCommerce/queue_job/jobrunner/runner.py:419-434 | one turn of the runner: a pending job is enqueued and run, any other is left alone |
| `JobQueue.Runner.RequeueJob` | bigCommerce/queue_job/models/queue_job.py:213-236 | a requeued job is pending again with its count reset |
| `JobQueue.RetryCountsAttempts` | bigCommerce/queue_job/job.py:499-523 | over every run, `retry` is the number of counted attempts since the last reset |
| `JobQueue.LimitHolds` | bigCommerce/queue_job/job.py:499-523 | without serialization failures a job with limit m makes at most m counted attempts, and is finished after the m-th |
| `JobQueue.AttemptsBounded` | bigCommerce/queue_job/controllers/main.py:71-94 | with them, at most m plus the number of those failures |
| `JobQueue.LimitEscaped` | bigCommerce/queue_job/controllers/main.py:71-79 | a job that only meets serialization failures can be tried any number of times and stay pending, whatever its limit |
| `JobQueue.LimitHoldsIff` | bigCommerce/queue_job/controllers/main.py:71-94 | for any history of a fresh job with a limit: at every moment a pending job has made fewer counted attempts than the limit, if and only if no serialization failure met it on its last attempt |
| `JobQueue.JobTable.Enqueue` | bigCommerce/queue_job/job.py:322-374 | a job with an identity key is created only if no pending or enqueued job has the key, which then has one; other keys are left alone |
| `JobQueue.JobTable.ChangeState` | bigCommerce/queue_job/models/queue_job.py:213-236 | a state change moves the number of pending or enqueued jobs of its key by what the job itself was and became, and of no other key |
| `JobQueue.EnqueueOutcome` | bigCommerce/queue_job/job.py:322-374 | a job is added unless a pending or enqueued job has its key |
| `JobQueue.ActiveBounded` | bigCommerce/queue_job/job.py:307-374 | pending or enqueued jobs of a key are at most one more than the times one was set back from another state |
| `JobQueue.UniqueIff` | bigCommerce/queue_job/job.py:307-374 | over any run of calls: at most one job of a key is pending or enqueued at every moment, if and only if none is whenever one is set back to such a state |
| `JobQueue.RevivalMakesTwo` | bigCommerce/queue_job/models/queue_job.py:213-236 | the bound is reached: requeueing a job while its successor waits makes two |
| `JobQueue.RequeuedBesideSuccessor` | bigCommerce/queue_job/models/queue_job.py:213-236 | for every key without an active job: enqueue, start, enqueue again and requeue the first, and two are active |
| `JobCodec.RoundTripIff` | bigCommerce/queue_job/fields.py:69-118 | decoding an encoded argument gives it back (tuples as lists), nested to any depth, if and only if no dictionary carries a reserved tag |
| `JobCodec.HookKeepsIff` | bigCommerce/queue_job/fields.py:104-118 | which dictionaries the decoder leaves alone |
| `JobCodec.RecordsetBack` | bigCommerce/queue_job/fields.py:73-111 | a recordset comes back with model, IDs, user and superuser flag |
| `JobCodec.NoUserIsDecoders` | bigCommerce/queue_job/fields.py:104-111 | a recordset without a user comes back for the decoder and with its rights |
| `JobCodec.NoFlagIsNoSuperuser` | bigCommerce/queue_job/fields.py:104-111 | a recordset with a user but no superuser flag comes back without superuser rights |
| `JobCodec.EncodeSucceedsIff` | bigCommerce/queue_job/fields.py:72-92 | encoding fails exactly when an unsupported value occurs somewhere |
| `ShipmentAllocation.Allocate` | bigCommerce/multichannel_fulfillment/models/stock_picking.py:203-215 | the quantities the loop gives to the moves of an item |
| `ShipmentAllocation.AllocConserves` | bigCommerce/multichannel_fulfillment/models/stock_picking.py:203-215 | an item with at least one move is allocated completely |
| `ShipmentAllocation.AllocShape` | bigCommerce/multichannel_fulfillment/models/stock_picking.py:203-215 | only the last move may exceed its demand; a partly filled move is the last one touched |
| `ShipmentAllocation.AllocOverflowIff` | bigCommerce/multichannel_fulfillment/models/stock_picking.py:203-215 | the last move overflows exactly when the item exceeds the total demand |
| `ShipmentAllocation.LinesOfProduct` | bigCommerce/multichannel_fulfillment/models/stock_picking.py:198-200 | the moves considered are those of the product, by ascending demand |
| `ShipmentAllocation.ProcessShipment` | bigCommerce/multichannel_fulfillment/models/stock_picking.py:186-252 | the quantities done after all items of a shipment |
| `ShipmentAllocation.ShippedByProduct` | bigCommerce/multichannel_fulfillment/models/stock_picking.py:196-252 | a shipment acts on each product by itself |
| `ShipmentAllocation.ShipmentConservesIff` | bigCommerce/multichannel_fulfillment/models/stock_picking.py:196-252 | on a picking with positive demands and nothing done yet: a product is shipped in full if and only if at most one item with a nonzero quantity names it |
| `ShipmentAllocation.ShippedBesideLeftover` | bigCommerce/multichannel_fulfillment/models/stock_picking.py:196-252 | items of distinct products, a picking in any state: each product ends with its item plus what was done before on the lines the item does not reach |
| `ShipmentAllocation.DistinctProductsConserve` | bigCommerce/multichannel_fulfillment/models/stock_picking.py:196-252 | with items of distinct products and nothing done yet everything is shipped |
| `KitClosure.LeastClosedSet` | bigCommerce/multichannel_fulfillment_mrp/models/stock_move.py:10-35 | the products to sync are the least set that contains the changed ones and is closed under phantom kits, for cyclic bills too |
| `KitClosure.SyncedIffChain` | bigCommerce/multichannel_fulfillment_mrp/models/stock_move.py:17-35 | a product is synced exactly when a chain of phantom kits, each with the one before as a component, leads to it from a changed product |
| `KitClosure.ExpansionIsClosure` | bigCommerce/multichannel_fulfillment_mrp/models/stock_move.py:10-35 | expanding twice adds nothing; more changes never give fewer products |
| `AuditFeed.Feed.StockChanged` | bigCommerce/multichannel_fulfillment/hooks.py:14-35 | the trigger keeps one row per changed product |
| `AuditFeed.Feed.TakeProducts` | bigCommerce/multichannel_fulfillment/models/stock_move.py:62-83 | the rows that are read, with their kits, and when the table is emptied |
| `AuditFeed.Feed.InventorySync` | bigCommerce/multichannel_fulfillment/models/stock_move.py:97-128 | what is handed to which channel, and what stays in the table |
| `AuditFeed.CarefulRun` | bigCommerce/multichannel_fulfillment/models/stock_move.py:57-128 | over every run of careful syncs each changed product is still noted, or was handed with its kits, since its last change, to every channel enabled when its note went away |
| `AuditFeed.KeepsIffCareful` | bigCommerce/multichannel_fulfillment/models/stock_move.py:97-128 | exactly which calls keep that promise in every history: all records, or no product list and no enabled channel left out |
| `AuditFeed.SyncHands` | bigCommerce/multichannel_fulfillment/models/stock_move.py:62-128 | what one sync hands over: exactly the selected products and their kits, once to every target in order |
| `AuditFeed.BulkHandsEverything` | bigCommerce/multichannel_fulfillment/models/stock_move.py:97-128 | after a bulk sync every target was handed all that is mapped to it, and the notes stay |
| `AuditFeed.ListedSyncDrops` | bigCommerce/multichannel_product/models/product_channel.py:782-784 | a sync for listed products forgets every other pending product, and brings no channel up to date with it |
| `AuditFeed.NotedOrSynced` | bigCommerce/multichannel_fulfillment/models/stock_move.py:62-83 | a changed product stays noted until a sync that is not for all records |
| `OrderTotals.ProcessDiscountLines` | bigCommerce/multichannel_order/utils/order_processing_helper.py:60-100 | the discount and coupon lines |
| `OrderTotals.ProcessFeeLines` | bigCommerce/multichannel_order/utils/order_processing_helper.py:102-122 | the fee lines |
| `OrderTotals.ProcessTaxLines` | bigCommerce/multichannel_order/utils/order_processing_helper.py:124-146 | the tax lines |
| `OrderTotals.PrepareImportedOrderLines` | bigCommerce/multichannel_order/models/sale_order.py:854-883 | the converted product lines, or the first error |
| `OrderTotals.SaleOrder.AmountAll` | bigCommerce/multichannel_order/models/sale_order.py:255-272 | untaxed, tax and total amounts fit the lines |
| `OrderTotals.SaleOrder.Import` | bigCommerce/multichannel_order/models/sale_order.py:1002-1018 | a whole import, all or nothing, totalled |
| `OrderTotals.ImportedLines` | bigCommerce/multichannel_order/utils/order_processing_helper.py:60-146 | the lines of an imported order one by one: kept discount, coupons, kept fees, kept taxes with quantity one and their amounts, sections and notes, and a fitting product line for every channel line |
| `OrderTotals.ItemLinesFit` | bigCommerce/multichannel_order/models/sale_order.py:854-883 | each channel line in order: its product, its quantity (times the mapping quantity) and its price (within half a cent of the share) |
| `OrderTotals.ImportedTotals` | bigCommerce/multichannel_order/models/sale_order.py:255-272 | taxes are the kept taxes; the rest is product lines plus kept fees minus the kept discount and all coupons; product lines are the channel's within half a cent per converted unit |
| `OrderTotals.TotalCloseToChannel` | bigCommerce/multichannel_order/models/sale_order.py:855-883 | for amounts that are not negative, how far an order total can be from the channel's |
| `OrderTotals.PlainTotalExact` | bigCommerce/multichannel_order/utils/order_processing_helper.py:60-146 | without conversion, the difference is exactly the amounts that are not kept |
| `OrderTotals.RoundedClose` | bigCommerce/multichannel_order/models/sale_order.py:880 | rounding to cents moves at most half a cent; an amount counts as positive from half a cent on |
| `OrderTotals.ItemWorth` | bigCommerce/multichannel_order/models/sale_order.py:874-881 | the product lines against the channel's own sum |
| `OrderTotals.DiscountWorth` | bigCommerce/multichannel_order/utils/order_processing_helper.py:60-100 | what the discount side takes off |
| `OrderTotals.FeeWorth` | bigCommerce/multichannel_order/utils/order_processing_helper.py:102-122 | what the fees add |
| `OrderTotals.TaxWorth` | bigCommerce/multichannel_order/utils/order_processing_helper.py:124-146 | what the taxes add |
| `OrderTotals.ImportSucceedsIff` | bigCommerce/multichannel_order/models/sale_order.py:854-883 | the import goes through exactly when every product was found and no mapping quantity is zero |
| `OrderTotals.BoundReached` | bigCommerce/multichannel_order/models/sale_order.py:877-881 | the rounding bound is reached by a one-cent article in a pack of two |
| `SkuGrouping.Template.AddAltSkus` | bigCommerce/multichannel_product/wizard/export_product_composer.py:201-211 | every variant without a SKU on the store gets its own code, unless the name is taken |
| `SkuGrouping.Template.ProductDict` | bigCommerce/multichannel_product/wizard/export_product_composer.py:155-167 | the SKUs grouped by product |
| `SkuGrouping.Template.DoExport` | bigCommerce/multichannel_product/wizard/export_product_composer.py:183-192 | which SKU goes into which listing, or the error |
| `SkuGrouping.GroupedIsFilter` | bigCommerce/multichannel_product/wizard/export_product_composer.py:160-165 | grouping neighbours of the sorted list collects exactly the SKUs of each product |
| `SkuGrouping.SortedFacts` | bigCommerce/multichannel_product/wizard/export_product_composer.py:158-160 | sorting keeps the records and their number per product |
| `SkuGrouping.DictMeaning` | bigCommerce/multichannel_product/wizard/export_product_composer.py:155-167 | the dictionary by counting |
| `SkuGrouping.CheckPassesIff` | bigCommerce/multichannel_product/wizard/export_product_composer.py:122-144 | when the export is let through: all or none mapped, equally many SKUs per variant, a code where there is none |
| `SkuGrouping.FilledAdds` | bigCommerce/multichannel_product/wizard/export_product_composer.py:201-211 | filling appends each variant's own code, for this store and variant |
| `SkuGrouping.FilledIff` | bigCommerce/multichannel_product/wizard/export_product_composer.py:201-211 | it is refused exactly if a code is on the store already or two variants share one |
| `SkuGrouping.SortedByKey` | bigCommerce/multichannel_product/wizard/export_product_composer.py:158-160 | SKUs come by product, then sequence, then age |
| `SkuGrouping.EveryVariantFull` | bigCommerce/multichannel_product/wizard/export_product_composer.py:122-144 | after the checks and the filling every variant has as many SKUs as there are listings |
| `SkuGrouping.ExportFailsIff` | bigCommerce/multichannel_product/wizard/export_product_composer.py:189-191 | the export fails exactly when a product that is not a variant (or no product) has SKUs, but too few |
| `SkuGrouping.RowsComplete` | bigCommerce/multichannel_product/wizard/export_product_composer.py:190-191 | every listing has a SKU for every variant: its i-th by sequence and id |
| `SkuGrouping.UsedAtMostOnce` | bigCommerce/multichannel_product/wizard/export_product_composer.py:190-191 | no SKU goes into two listings or to two products |
| `SkuGrouping.AllUsedIff` | bigCommerce/multichannel_product/wizard/export_product_composer.py:190-191 | every SKU is used if and only if no group has more SKUs than there are listings |
| `SkuGrouping.NamedSkusExport` | bigCommerce/multichannel_product/wizard/export_product_composer.py:183-192 | if every SKU names a variant, the export succeeds and uses every SKU |
| `SkuGrouping.UnnamedSkuFails` | bigCommerce/multichannel_product/wizard/export_product_composer.py:189-191 | two variants with two SKUs each, and one SKU on the store whose product is not known: the checks pass and the export stops |
| `ServiceTransfer.Order.DoAction` | bigCommerce/multichannel_fulfillment/models/stock_service_move.py:130-142 | processing a transfer, or nothing after a negative quantity |
| `ServiceTransfer.Order.DoConfirm` | bigCommerce/multichannel_fulfillment/models/stock_service_picking.py:96-131 | every way a confirmation can go, and the backorder |
| `ServiceTransfer.Order.DoCancel` | bigCommerce/multichannel_fulfillment/models/stock_service_picking.py:144-149 | cancelling a transfer |
| `ServiceTransfer.Order.CreateBackorder` | bigCommerce/multichannel_fulfillment/models/stock_service_picking.py:126-129 | a new transfer with what every short line misses |
| `ServiceTransfer.Order.CalculateShipped` | bigCommerce/multichannel_fulfillment/models/sale_order.py:34-37 | delivered quantities of the lines of a transfer |
| `ServiceTransfer.Order.DoShipItem` | bigCommerce/multichannel_fulfillment/models/stock_service_picking.py:197-219 | one shipped item entered on an open transfer |
| `ServiceTransfer.ConfirmCovers` | bigCommerce/multichannel_fulfillment/models/stock_service_picking.py:96-131 | after a direct confirmation every deliverable line has what processing left, or the ordered quantity if that is more |
| `ServiceTransfer.DoneShifts` | bigCommerce/multichannel_fulfillment/models/stock_service_move.py:130-142 | how processing changes the assigned quantity of a line, exactly |
| `ServiceTransfer.ImmediateKeepsAssigned` | bigCommerce/multichannel_fulfillment/wizard/stock_service_immediate_transfer.py:13-15 | an immediate transfer leaves every assigned quantity alone |
| `ServiceTransfer.RunKeepsDelivered` | bigCommerce/multichannel_fulfillment/models/stock_service_picking.py:133-149 | over every run of confirming, processing, cancelling, shipping and editing, delivered is the sum over done moves |
| `ServiceTransfer.DeleteKeepsIff` | bigCommerce/multichannel_fulfillment/models/stock_service_picking.py:91-94 | deleting a transfer keeps that exactly when it holds no done quantity |
| `ServiceTransfer.RunKeepsCovered` | bigCommerce/multichannel_fulfillment/models/stock_service_picking.py:96-142 | a covered order stays covered while transfers are shipped and confirmed |
| `ServiceTransfer.ProcessedMoves` | bigCommerce/multichannel_fulfillment/models/stock_service_move.py:130-142 | what processing leaves of every single move, and when it raises |
| `ServiceTransfer.CancelledMoves` | bigCommerce/multichannel_fulfillment/models/stock_service_picking.py:144-149 | what cancelling leaves of every single move, the state of the transfer, and what is no longer assigned |
| `ServiceTransfer.CancelledDelivery` | bigCommerce/multichannel_fulfillment/models/stock_service_picking.py:144-149 | cancelled done moves are no longer delivered; kept ones are |
| `ServiceTransfer.ConfirmOutcome` | bigCommerce/multichannel_fulfillment/models/stock_service_picking.py:96-121 | which way a confirmation goes |
| `ServiceTransfer.BackorderOutcome` | bigCommerce/multichannel_fulfillment/models/stock_service_picking.py:126-129 | a backorder holds one open move per short line, for what it misses, and nothing else |
| `ServiceTransfer.GenerateOutcome` | bigCommerce/multichannel_order/models/sale_order.py:129-141 | confirming an order gathers the open moves of short lines and adds moves for those without |
| `ServiceTransfer.ProcessingCloses` | bigCommerce/multichannel_fulfillment/models/stock_service_picking.py:64-79 | a processed transfer is closed, and when it counts as cancelled |
| `ServiceTransfer.GenerateCoversIff` | bigCommerce/multichannel_order/models/sale_order.py:129-141 | confirming the order covers a line exactly when it was covered or had no draft move |
| `ServiceTransfer.ShippedInFull` | bigCommerce/multichannel_fulfillment/models/stock_service_picking.py:205-219 | a shipped item is entered in full, and no move is done beyond its demand |
| `InventoryClamp.ComputeAvailableQty` | bigCommerce/multichannel_fulfillment/models/ecommerce_channel.py:154-170 | the synced quantity, or the error of a zero mapping quantity |
| `InventoryClamp.ComputeFreeQty` | bigCommerce/multichannel_fulfillment/models/product_channel_variant.py:21-33 | what the variants of one channel show |
| `InventoryClamp.WholePacksIff` | bigCommerce/multichannel_fulfillment/models/ecommerce_channel.py:154-170 | without limits: the greatest number of whole packs that the share of the stock covers |
| `InventoryClamp.Limited` | bigCommerce/multichannel_fulfillment/models/ecommerce_channel.py:154-170 | with limits: that number, or the limit it passes |
| `InventoryClamp.FreeQtyIs` | bigCommerce/multichannel_fulfillment/models/product_channel_variant.py:21-33 | a variant shows what is synced for its stock, never less than zero |
| `InventoryClamp.SyncedMonotone` | bigCommerce/multichannel_fulfillment/models/ecommerce_channel.py:154-170 | accepted settings: more stock or a larger percentage never syncs less |
| `InventoryClamp.MonotoneIff` | bigCommerce/multichannel_fulfillment/models/ecommerce_channel.py:144-148 | for any positive mapping quantity: monotone in stock exactly when the limits in use are not crossed |
| `InventoryClamp.SyncedBounds` | bigCommerce/multichannel_fulfillment/models/ecommerce_channel.py:129-148 | the result stays within the limits in use |
| `InventoryClamp.NoOversellIff` | bigCommerce/multichannel_fulfillment/models/ecommerce_channel.py:154-170 | the store is not offered more units than there are exactly when no minimum is in use or the stock covers it |
| `InventoryClamp.FreeQtyBounds` | bigCommerce/multichannel_fulfillment/models/product_channel_variant.py:21-33 | a variant shows a quantity within the limits, never negative, and oversells only through the minimum |
| `Listing.ProductChannel.BigcommercePostRecord` | bigCommerce/multichannel_bigcommerce/models/product_channel.py:435-478 | creating the product, with the clean-up after a local failure |
| `Listing.ProductChannel.PushToChannel` | bigCommerce/multichannel_product/models/product_channel.py:759-792 | publishing a listing; a failed new one is removed |
| `Listing.ProductChannel.PutToChannel` | bigCommerce/multichannel_product/models/product_channel.py:794-824 | updating a listing and fetching it again |
| `Listing.ProductChannel.Write` | bigCommerce/multichannel_product/models/product_channel.py:958-981 | what an edit does to the state |
| `Listing.ProductChannel.SetToDraft` | bigCommerce/multichannel_product/models/product_channel.py:681-698 | deleting the product and going back to draft |
| `Listing.EditOutcome` | bigCommerce/multichannel_product/models/product_channel.py:958-981 | an edit makes a published listing updated, takes one out of error, and changes nothing else |
| `Listing.PushOutcome` | bigCommerce/multichannel_product/models/product_channel.py:759-792 | what a post leaves for every reply of the store |
| `Listing.LatePushOutcome` | bigCommerce/multichannel_product/models/product_channel.py:759-792 | a failure after a saved post leaves the record as it was and the product on the store |
| `Listing.ExportOutcome` | bigCommerce/multichannel_product/models/product_channel.py:794-824 | what an export leaves for every reply |
| `Listing.MasterUpdateOutcome` | bigCommerce/multichannel_product/models/product_channel.py:794-824 | what an update from the master product leaves for every reply |
| `Listing.WithdrawOutcome` | bigCommerce/multichannel_product/models/product_channel.py:681-698 | what withdrawing a listing leaves for every reply |
| `Listing.RunKeepsSound` | bigCommerce/multichannel_product/models/product_channel.py:681-698 | over every run and all replies, at every step boundary: published or updated implies a store ID, draft implies none |
| `Listing.RunStraysIff` | bigCommerce/multichannel_bigcommerce/models/product_channel.py:435-478 | over every run from a store without strays: no product is left there without its listing, if and only if every step got clean replies (no lost answer, no failure after a saved post, a failed save cleaned up, no linked ID replaced, no refused or unasked removal) |
| `Listing.LateFailureStrays` | bigCommerce/multichannel_product/models/product_channel.py:759-792 | a failure after the store ID was saved leaves the product on the store, and the listing can be posted again |
| `Listing.PublishedMeansAcceptedIff` | bigCommerce/multichannel_product/models/product_channel.py:767-791 | a listing shown as published after a post had this post accepted and saved, whatever the replies, if and only if it had no store ID before |
| `Listing.PublishActsIff` | bigCommerce/multichannel_product/models/product_channel.py:826-861 | publishing does something exactly for drafts and errors without a store ID; for an updated listing it never does |
| `Listing.VariantRepliesForgotten` | bigCommerce/multichannel_bigcommerce/utils/bigcommerce_product_helper.py:330-343 | what the store says to each variant leaves no trace on the listing |
| `Listing.PublishedDespiteRefusalIff` | bigCommerce/multichannel_bigcommerce/utils/bigcommerce_product_helper.py:330-343 | exactly when a listing with a refused variant is shown as published |

## Left out

- Access to the store, FTP, EasyPost and the SDK: replies are arguments or arbitrary choices, with the effects named in each module.
- The ORM, access rules, computed-field triggers, chatter, activities, views and menus: plumbing without a property of its own.
- Odoo's own reconciliation, tax engine, stock reservation and units of measure: only the effect used is modelled (residuals drop by the applied amount, cleared taxes are zero, one unit).
- Floating-point error, and the rounding of line subtotals by the tax engine.
- Images, slugs, phone formats, address lookup, customer matching, logs, dashboards and configuration: decided by foreign libraries or easy.
- Multi-record writes and multi-channel batches, where the state of one record leaks into another.
- The export of shipment items to the store and its log of extra lines (stock_picking.py:269-298): a per-product sum with no further promise.
- Variants posted after the options, and the merging of option replies into their attribute data (bigcommerce_product_helper.py:446-498): the replies decide the result.
- The importers and mappers of pricelists, orders and products, and the fulfillment of physical orders outside the allocation loop.
- DepositLedger.Ledger.Assign: one currency, no `partial_amount` override, and the receivable or payable lines of an invoice taken as one open line, because conversion rates come from outside.
- DepositLedger.Ledger.ReconcileDeposits: documents are customer invoices and vendor bills, whose direction is the side of their open line; for a vendor refund, where the code looks at `move_type` alone (account_move.py:238-241), the two differ, and refunds are not modelled.
- DepositLedger.RunConserves: other payments of an invoice are one number that only grows with payments, because Odoo reconciles them.
- OrderUpdate.SaleOrder.UpdateInQueueJob: only the order lines; address, header fields and follow-up jobs do not touch them.
- OrderUpdateLines.WrittenByChannelId: where one line is addressed more than once, the last value stays (`OrderUpdate.MatchedOrZeroed`); the lemmas about single lines are for a value that is alone in addressing its line, and sections and notes of the channel carry no ID.
- OrderUpdate.SameTotalIff: discount and coupon lines hold quantity one or zero, as the importer and the updates leave them; quantities that a user edits by hand are covered by `OrderUpdate.InPlaceTotal` and `OrderUpdate.DriftOfLastHit` only.
- ShipmentAllocation.ShipmentConservesIff: with quantities done before, a later item meets what earlier ones left; only the case of distinct products is stated for that (`ShipmentAllocation.ShippedBesideLeftover`).
- VariantOptions.ConvergesIffClean: assumes that every request succeeds, that a deleted key that does not exist changes nothing, and that an update adds values, as the export does.
- VariantOptions.Exporter.DoExport: the fetched options have unique names, as the store enforces; variants and images of the product are not part of it.
- CategoryForest.NewCategoryEmitted: for distinct category IDs, as the store gives them.
- CategoryForest.ImportRebuildsIff: for distinct category IDs and commands executed in list order; the ORM's check against parent cycles, which refuses a whole write, and every field but the name and the parent are left out.
- PricelistExport.Workflow.DoExport: an exception other than the HTTPError may roll the flags back with the job's transaction, which is outside the model.
- JobQueue.Job.GetRetrySeconds: waits are single numbers, which is all that a retry pattern may hold (queue_job_function.py:191-205, although its help text at 63-65 offers intervals); an interval from which the wait is drawn at random could only come with an exception, and no caller in the repository passes one. The pattern is sorted by its counts, as the method sorts it.
- JobQueue.ActiveBounded: calls are atomic; two transactions that enqueue at the same moment are not modelled. Channels, the job runner and the cleaning of old jobs call these methods and are left out.
- JobCodec.RoundTripIff: dictionary keys are strings; dates and XML are taken as text that parses back; non-finite numbers and lazily evaluated values that fail are left out.
- ShipmentAllocation.ProcessShipment: the moves are those of the picking found for the shipment; address and carrier data are left out.
- KitClosure.LeastClosedSet: bills of materials per template, as the query reads them; bills limited to a variant are treated alike by it.
- AuditFeed.CarefulRun: steps are atomic, the audit table is in use, bills and mappings do not change during a run, and the exclusion rules of a channel (which filter what it is handed on purpose) are not applied.
- OrderTotals.PrepareImportedOrderLines: finding the product of a line is an argument; the variant of the import that puts taxes on order lines is left out.
- SkuGrouping.Template.DoExport: one store and one template; a second store in the same export sees the mapping flags the first one set, and what was exported before an error stays on the store.
- ServiceTransfer.Order.DoConfirm: locking a fully shipped order and posting the shipment to the store follow and change no quantity; `quantity_done` of a move that is already done is not edited.
- ServiceTransfer.RunKeepsDelivered: from states in which a transfer is open as a whole or not at all, which every step keeps.
- InventoryClamp.ComputeFreeQty: variants of one channel, with the stock of every linked product known, as the query returns it.
- Listing.RunKeepsSound: one listing, and edits that name neither the state nor the store ID; variants only as the replies the store gives to them, images and errors while rolling back are left out.
- Listing.RunStraysIff: the store gives new products unused IDs, and nobody else deletes its products.
