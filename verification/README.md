# Formal model of the TrueBuild integration platform

The platform keeps an Odoo ERP and a WooCommerce shop in step: products, variants, prices and stock go from Odoo to
the shop, orders and customers from the shop to Odoo, and what fails is retried from a table of failed jobs. This
project models its services and proves what they keep, over every sequence of events, with any external call failing
before or after it takes effect.

`dafny verify dfyconfig.toml` checks the whole project.

## How it is built

* **State.** A `World` is one database session (`committed` and `working` tables, and the sequences that hand out row
  ids), Odoo and the shop. Odoo and the shop change for good; the database can be rolled back.
* **Failures.** Every writing call carries its fate: it succeeds, raises before its effect, or takes effect and then
  raises. A creation in the shop also carries how many earlier sends of its request took effect unheard
  (`Outcomes.Posting`), which `WooClient.Post` derives from the retry loop. Reading calls may raise too. Queries
  limited to one record answer with any matching record.
* **Two forms.** Each service is a class over the session and the two stores (`OrderService`, `CustomerService`,
  `ProductService`, `RetryTasks`, `Repositories`, `MappingRepositories`, `Inventory`, `Pricelist`, `RateLimiter`),
  whose methods follow the source step by step. Each method is proved to be a function on worlds (`OrderSync`,
  `CustomerSync`, `VariantSync`, `ProductSync`, `RetryQueue`), and the guarantees are lemmas about those functions.
* **Outcomes.** `OrderOutcomes`, `CustomerOutcomes`, `TemplateOutcomes` and `JobOutcomes` say, column by column and in
  terms of the inputs, what one call of these functions means: when exactly it succeeds, fails or is skipped, and what
  it leaves behind in each case.
* **Runs.** `Runs.Op` lists the events: order sync, webhook, the death of the process in an order sync, cancellation,
  refund, one attempt of the retry queue, manual requeue, product sync by SKU, full product pass (finished or cut
  short), commit, loss of the session, deletion of a product or of a single variation in the shop. `Runs.Run` executes
  any sequence of them, so a crash may happen between any two.
* **Main results.** `ReachableStates.EveryReachableState`, `ReachableStates.EveryReachableProduct` and
  `ReachableStates.EveryReachableVariation` put the invariants together for everything that can be reached from a new
  platform; `OrderRuns.SaleOrderAccount`, `RetryQueue.DurableEffect`, `QueueRuns.NoFailureForgotten`,
  `QueueRuns.Schedule`, `CataloguePass.Converges`, `CataloguePass.SecondPassIsQuiet`,
  `CrashRecovery.SameAsUninterrupted`, `CrashRecovery.ProductAccount`, `ProductSkus.UniqueUnlessDuplicated` and
  `VariationSkus.UniqueUnlessDoubled` are the main theorems behind and beside them, `OrderOutcomes.SaleHoldsOrder`,
  `FailedJobs.PunctualLife` and `TemplateOutcomes.SuccessSettles` those about single events.
* **Broken promises.** Each promise that the code breaks has its exact condition and a literal input or run that
  breaks it, most of them in `KnownFailures`.

## Where the code does less than it says

The model follows the code.

* The order table is said to prevent duplicate orders (app/database/models.py:164-169). A successful sync makes
  another sale order once a cancellation or refund has moved the row out of SYNCED, and so does every attempt after
  one that failed or died when its sale order existed already. `SaleOrderAccount` counts them exactly;
  `RollIsSoldTwice` is a run that ends with two.
* A failed order is said to be retried (app/services/order_sync.py:467-515). An order with id 0 is not: its retry does
  nothing and is recorded as resolved (app/tasks/retry_tasks.py:163-164). See `OrderZeroIsForgotten`; for every other
  id `NoFailureForgotten` holds.
* A pass reports a job as succeeded when its attempt succeeded (app/tasks/retry_tasks.py:44-56), but a later rollback
  in the same pass may take the resolution back: `DurableEffect` says exactly when, `ResolutionIsTakenBack` is a run
  in which it does. A pass that reports no failure keeps all of them: `CleanPassResolvesAll`.
* A product without a code of its own is synced under a SKU derived from its variants, but its retry searches Odoo for
  that SKU (app/services/product_sync.py:274-296). Unless some template has it as its code, the retry job can never be
  resolved: `DerivedSkuIsHopeless`. If one has, the job is resolved by syncing that template, not the one that failed
  (`FoundSkuResolves`); while SKUs are distinct, none has (`DerivedSkuIsNobodysCode`).
* Looking up before creating is to prevent duplicates (app/services/variant_sync.py:222-226,
  app/services/product_sync.py:412-420). A lookup of variations that fails is taken for "not found"
  (app/services/variant_sync.py:297-304), and the client sends a creation again after a timeout or a 5xx without
  asking whether it took effect (app/services/woo_client.py:158-218), so one call that succeeds may leave two records
  with one SKU. These are the only ways: `UniqueUnlessDoubled` and `RunKeepsUnique` for variations,
  `UniqueUnlessDuplicated` and `RunKeepsUnrivalled` for products; `RollIsDoubled`, `RollIsSentTwice` and
  `TurfIsSentTwice` are runs that take them, and `ProductAccount` counts the surplus.
* What was deleted in the shop is to be created again (app/services/product_sync.py:401-408). That is so for products;
  a variation deleted under a living product is never recreated. `CataloguePass.Converges` names exactly the variants
  that stay behind (`Lost`); `NeverLost` says that nothing but such a deletion loses one, `RollIsLost` is a run that
  does.
* The row of a variable product answers its parent SKU with its first variant (app/services/order_sync.py:377-387),
  which does not carry it: `ThreeTiersAgree` says exactly when the tiers of the lookup answer what Odoo's own search
  would.
* The limits are said to be requests per window (app/config/settings.py:98-101). The limiter counts seconds in which
  there was a request (app/middleware/rate_limiter.py:74-84), so the default general limit of 100 requests in 60
  seconds never denies anything: `DeniesAtAll`, `DefaultLimits`.

## Model

| member | source | states |
|---|---|---|
| `ReachableStates.NewPlatformIsSound` | app/database/models.py:76-187 | The invariants hold of empty tables beside any Odoo and any shop. |
| `ReachableStates.EveryReachableState` | app/tasks/retry_tasks.py:22-179 | From there every run keeps all invariants of orders, jobs and catalogue at once, the job schedule if no retry was manual, and the exact account of sale orders for every order. |
| `ReachableStates.EveryReachableProduct` | app/services/product_sync.py:388-456 | Every run keeps product SKUs unique unless a creation was sent again after it took effect; and while nobody deletes products, the shop holds those of the first day, one for each template that needed one and got it, and exactly that surplus. |
| `ReachableStates.EveryReachableVariation` | app/services/variant_sync.py:200-304 | Every run keeps variant rows true to their variants; keeps variation SKUs unique unless a creation took effect while there was one; and loses no variant unless a single variation was deleted. |
| `Runs.PassIsRun` | app/tasks/retry_tasks.py:44-74 | A retry pass is the run of its attempts followed by one commit, so every run theorem holds within and after it. |
| `OrderService.OrderSyncService.SyncOrder` | app/services/order_sync.py:72-110 | The method does what the order function says on the whole world; skipped exactly if the row was SYNCED, failed exactly if the attempt raised. |
| `OrderService.OrderSyncService.SyncOrderFromPayload` | app/services/order_sync.py:112-147 | The same for a webhook payload; one without an id leaves no trace. |
| `OrderService.OrderSyncService.ProcessOrder` | app/services/order_sync.py:151-311 | On failure the session is back at the last commit while Odoo keeps what was done; on success the row, the customers and Odoo are committed together. |
| `OrderService.OrderSyncService.PlaceSale` | app/services/order_sync.py:227-265 | Create, confirm, invoice and post, each of which may fail before or after its effect. |
| `OrderService.OrderSyncService.HandleOrderError` | app/services/order_sync.py:467-515 | Enqueues one retry, marks or creates the row as FAILED, and commits. |
| `OrderService.OrderSyncService.HandleOrderCancelled` | app/services/order_sync.py:519-561 | Cancels in Odoo and in the row; an API error of Odoo does not stop it, any other does. |
| `OrderService.OrderSyncService.HandleOrderRefunded` | app/services/order_sync.py:563-588 | Marks a known order as refunded; an unknown one is skipped. |
| `OrderSync.SyncOrderSound` | app/services/order_sync.py:72-110 | One sync, whatever fails in it, keeps order rows durable, synced rows backed by their own confirmed sale order, and partners unduplicated. |
| `OrderSync.ProcessOrderSound` | app/services/order_sync.py:151-311 | Of every attempt: at most one new sale order, made for this order, with lines and three different partners; on success it is the one reported, and it is confirmed. |
| `OrderSync.DistinctRowsNameDistinctSales` | app/database/models.py:174-175 | Two order rows never name the same sale order. |
| `OrderSync.SyncOrderAccount` | app/services/order_sync.py:86-99 | New sale orders of one sync are the one its row turns SYNCED with, or the one an attempt made before it failed. |
| `OrderSync.ResyncKeepsStaleFields` | app/repositories/order_repo.py:90-125 | A row first written by a failure keeps its empty number and total, and a re-synced row an older invoice id. |
| `OrderOutcomes.SaleHoldsOrder` | app/services/order_sync.py:227-253 | Of every attempt, failed or not: the sale order that it makes is for this order and for the three partners of its customer, holds a line for every item whose SKU is found and for no other, in order, is not cancelled, and is confirmed exactly if the confirmation took effect. |
| `OrderOutcomes.AttemptSucceedsIff` | app/services/order_sync.py:200-265 | An attempt makes a sale order exactly if the partners are had, no lookup of an item raises, some item is found and the creation takes effect; it succeeds exactly if besides no call raises but an API error of invoicing or posting. |
| `OrderOutcomes.AttemptLeaves` | app/services/order_sync.py:151-265 | Whatever becomes of an attempt, Odoo keeps the partners found or made for it, every older sale order as it was, and no new one but the one made. |
| `OrderOutcomes.SuccessMeans` | app/services/order_sync.py:267-307 | A successful visit commits its row, with number, total, invoice and the sale order made in this very visit, and the contact of that sale order under the address of the customer; every other row and job stays. |
| `OrderOutcomes.FailureMeans` | app/services/order_sync.py:467-515 | A failed visit commits the row marked FAILED with its other columns kept, and one new job due after the first delay, on top of the database if processing failed and of the session if fetching did. |
| `OrderOutcomes.SkippedMeans` | app/services/order_sync.py:86-147 | A SYNCED order is left alone, any other is visited, and a payload without an id leaves no trace. |
| `OrderOutcomes.DeathMeans` | app/services/order_sync.py:227-283 | A process that dies in a visit leaves the committed database, and one sale order more exactly if its creation took effect; it holds the whole order and no row names it. |
| `OrderOutcomes.CancellationMeans` | app/services/order_sync.py:519-561 | A cancellation cancels exactly the sale order that the row names, if the call takes effect, and changes nothing else of it or of any other; the row says CANCELLED unless the call raises anything but an API error. |
| `OrderOutcomes.RefundMeans` | app/services/order_sync.py:563-588 | A refund changes one row to REFUNDED, durably, and nothing in Odoo. |
| `OrderRuns.RunOrdersSound` | app/services/order_sync.py:237-283 | In every reachable state a SYNCED row names a sale order made for that order and confirmed; across all runs no contact per e-mail address and no child per parent is duplicated. |
| `OrderRuns.SaleOrderAccount` | app/services/order_sync.py:86-99 | Sale orders made for an order equal: one if SYNCED now, plus times the row left SYNCED, plus attempts that failed or died after creating one. |
| `OrderRuns.SyncedOnceIsEnough` | app/services/order_sync.py:132-141 | Once SYNCED and not cancelled or refunded, an order keeps its row and gets no further sale order, not even from jobs whose resolution was rolled back. |
| `KnownFailures.RefundedOrderIsMadeAgain` | app/services/order_sync.py:86-99 | Any order that is synced, refunded and synced again has two sale orders. |
| `KnownFailures.RollIsSoldTwice` | app/services/order_sync.py:563-588 | Three literal events on a new platform after which one order has two sale orders. |
| `KnownFailures.OrderIsMadeAgainAfterDeath` | app/services/order_sync.py:227-283 | Any order whose first attempt dies before its commit and that is then synced has two sale orders. |
| `KnownFailures.RollIsSoldTwiceAfterDeath` | app/services/order_sync.py:227-283 | A literal run without a failing call or a refund that does so. |
| `OrderLines.BuildOrderLines` | app/services/order_sync.py:313-361 | The loop computes the list that `LinesAreProjection` and `LinesRaiseIff` are about; the first failing lookup ends it. |
| `OrderLines.LinesAreProjection` | app/services/order_sync.py:313-361 | The lines are the items whose SKU resolves, in order, and no others: each sells the product found, as often and at the price the item says, under its name or, if that is empty, its SKU. |
| `OrderLines.EmptyLinesIffNothingResolves` | app/services/order_sync.py:219-225 | An order is rejected for having no lines exactly if no item resolves. |
| `OrderLines.LinesRaiseIff` | app/services/order_sync.py:330-350 | Building the lines raises exactly if the lookup of some item that has a SKU does; items without one are passed over. |
| `OrderLines.FirstOfTemplateMeans` | app/services/order_sync.py:377-397 | The search by template answers the first active variant in Odoo's order, and nothing only if there is none. |
| `OrderLines.ThreeTiersAgree` | app/services/order_sync.py:363-408 | With unique codes in Odoo, the three-tier lookup answers what the direct search would if and only if the tier that answers tells the truth, failing searches included. |
| `OrderLines.ParentSkuPicksFirstVariant` | app/services/order_sync.py:377-387 | An input on which they differ: the SKU of a variable product is answered with its first variant. |
| `CatalogueConsumers.MappedVariantIsFound` | app/services/order_sync.py:372-375 | In every state that a run reaches, the SKU of a mapped variant is answered with that variant, even while Odoo's searches fail. |
| `CatalogueConsumers.RunKeepsKeys` | app/services/variant_sync.py:207-266 | Over every run both keys of every variant row are those of one variant of Odoo. |
| `CustomerService.CustomerSyncService.GetOrCreatePartner` | app/services/customer_sync.py:87-140 | Contact, invoice child and delivery child, or the first failure; an empty e-mail address is refused. |
| `CustomerService.CustomerSyncService.FindOrCreateParent` | app/services/customer_sync.py:144-213 | Mapping row, else search, else creation; what is found or made is mapped under the normalised address. |
| `CustomerService.CustomerSyncService.GetOrCreateChild` | app/services/customer_sync.py:267-333 | Finds and refreshes, or creates, the child of one kind. |
| `CustomerSync.PartnersGuarantee` | app/services/customer_sync.py:105-140 | Whatever fails, no partner is duplicated and no sale order touched; on success the three ids are distinct and of the right kinds. |
| `CustomerOutcomes.PartnersAnswerIff` | app/services/customer_sync.py:87-140 | The three partners are had exactly if the address is not empty and contact, invoice address and delivery address are each answered, in this order. |
| `CustomerOutcomes.PartnersMean` | app/services/customer_sync.py:105-140 | On success the contact is the one mapped, else one that Odoo has, and alone is remembered under the address; whoever is new is that contact, its invoice address with the e-mail address as typed, or its delivery address without one. |
| `CustomerOutcomes.ContactIsRemembered` | app/services/customer_sync.py:105-213 | Once the contact is had, it is mapped even if an address fails, and Odoo is as the last step that was made left it. |
| `CustomerOutcomes.ParentAnswersIff` | app/services/customer_sync.py:155-213 | A contact is answered exactly if the address is mapped, or the search succeeds and finds one, or one is created. |
| `CustomerOutcomes.ContactIsMadeIff` | app/services/customer_sync.py:180-213 | One is made exactly if the address is not mapped, the search finds nobody and the creation takes effect, whatever is heard of it. |
| `CustomerOutcomes.UnansweredIsForgotten` | app/services/customer_sync.py:144-213 | Without an answer no mapping is written. |
| `CustomerOutcomes.ChildAnswersIff` | app/services/customer_sync.py:267-333 | An address is answered exactly if the search succeeds and the one found can be refreshed, or one is created; every failure is a ValueError. |
| `CustomerOutcomes.ChildMeans` | app/services/customer_sync.py:267-333 | It is a child of that kind that was there, or else a new one under the contact. |
| `CustomerOutcomes.ChildIsMadeIff` | app/services/customer_sync.py:267-333 | One is made in Odoo exactly if the search finds none and the creation takes effect, whatever is heard of it. |
| `CustomerOutcomes.EmptyAddressIsRefused` | app/services/customer_sync.py:105-107 | An empty address is refused before anything is asked or written. |
| `Emails.NormaliseTwice` | app/repositories/customer_repo.py:27-56 | Normalising a key again changes nothing, so rows are found under the key they were written with. |
| `Emails.NormaliseIsCore` | app/repositories/customer_repo.py:27-56 | The key is the address in lower case between its first and last characters that are not blank. |
| `Emails.SameCustomerIff` | app/repositories/customer_repo.py:53-56 | Two addresses have the same key if and only if, without the blanks around them, they are equal letter by letter up to case: no two customers are merged otherwise, and none is split. |
| `Repositories.FailedJobRepository.Create` | app/repositories/failed_job_repo.py:31-79 | A new PENDING job, due after the first delay, under a fresh id. |
| `Repositories.FailedJobRepository.IncrementRetry` | app/repositories/failed_job_repo.py:105-150 | One more failed retry: the step that `TotalGrows` and `PunctualLife` are about. |
| `Repositories.FailedJobRepository.MarkResolved` | app/repositories/failed_job_repo.py:152-159 | The job is RESOLVED and waits for nothing. |
| `Repositories.OrderMappingRepository.Create` | app/repositories/order_repo.py:27-50 | Adds the row to the session only. |
| `Repositories.OrderMappingRepository.Update` | app/repositories/order_repo.py:90-111 | Arguments that are None leave their column alone. |
| `MappingRepositories.CustomerMappingRepository.Create` | app/repositories/customer_repo.py:27-47 | Writes the row under the normalised address. |
| `MappingRepositories.CustomerMappingRepository.GetByEmail` | app/repositories/customer_repo.py:53-56 | Finds the row of the normalised address, and no other. |
| `MappingRepositories.ProductMappingRepository.Create` | app/repositories/product_repo.py:27-46 | Adds the row under a fresh id, to the session only. |
| `MappingRepositories.ProductMappingRepository.Update` | app/repositories/product_repo.py:77-95 | Arguments that are None leave their column alone; no other row changes. |
| `MappingRepositories.ProductMappingRepository.Delete` | app/repositories/product_repo.py:105-109 | Removes the row and exactly the variant rows under it. |
| `MappingRepositories.VariantMappingRepository.Create` | app/repositories/variant_repo.py:27-46 | Adds the row under a fresh id, to the session only. |
| `MappingRepositories.VariantMappingRepository.MarkSynced` | app/repositories/variant_repo.py:76-94 | Refreshes link and status, never SKU or Odoo id. |
| `MappingRepositories.VariantMappingRepository.ListByProduct` | app/repositories/variant_repo.py:67-74 | The variant rows of a product, each once, in ascending order of their ids. |
| `FailedJobs.ReadyJobStaysOnSchedule` | app/repositories/failed_job_repo.py:105-159 | Advancing or closing a ready job keeps it on schedule: waits are never shorter than the delays due so far. |
| `FailedJobs.TotalGrows` | app/repositories/failed_job_repo.py:129-140 | The wait after n failed retries is entry n of the schedule, and its last entry after that: it is what the sum of the first n + 1 waits has more than that of the first n. |
| `FailedJobs.PunctualLife` | app/repositories/failed_job_repo.py:31-150 | A job whose retries are made when due and all fail is ready for retry n + 1 exactly from its creation plus the sum of the first n + 1 entries of the schedule, and dead at the last of them. |
| `FailedJobs.DefaultLife` | app/repositories/failed_job_repo.py:26-26 | With the default settings the retries come after 1, 6, 21 and 81 minutes, and the job is dead with the fourth. |
| `FailedJobs.LastSteps` | app/repositories/failed_job_repo.py:152-159 | A resolved job keeps its history and waits for nothing; one that is reset is ready from that moment on. |
| `RetryTasks.RetryWorker.ExecuteRetry` | app/tasks/retry_tasks.py:136-179 | Dispatch by job type to the three services, which are run; an identifier that is 0 or empty counts as success. A finished inventory job has written all the stock its product owes, a failed one nothing else. |
| `RetryTasks.RetryWorker.Attempt` | app/tasks/retry_tasks.py:46-60 | Executes the job and marks it resolved or advanced, uncommitted. |
| `RetryTasks.RetryWorker.ProcessRetryQueue` | app/tasks/retry_tasks.py:31-88 | The loop is the pass function; processed counts every job once, and failed_again exactly the attempts that raised. |
| `RetryTasks.RetryWorker.RetrySingleJob` | app/tasks/retry_tasks.py:95-133 | Attempts any existing job, whatever its status, and commits. |
| `RetryTasks.RetryWorker.RetryFailedJob` | app/api/sync_endpoints.py:308-338 | When dispatch fails: a pending or dead job is reset and due now, any other is refused. |
| `RetryTasks.CleanPassResolvesAll` | app/tasks/retry_tasks.py:44-74 | A pass that reports no failure has durably resolved every job it attempted. |
| `JobOutcomes.OrderJobFailsIff` | app/tasks/retry_tasks.py:161-166 | An order job fails exactly if its order is not SYNCED in the database afterwards; id 0 never fails. |
| `JobOutcomes.ProductJobSucceeds` | app/tasks/retry_tasks.py:152-160 | A product job that succeeds has settled, durably, a template with its SKU as code. |
| `JobOutcomes.ProductJobFailsIff` | app/tasks/retry_tasks.py:152-160 | It fails exactly if the search fails, no template has the code, or the sync of that template fails. |
| `JobOutcomes.OtherJobs` | app/tasks/retry_tasks.py:136-179 | Without a login every job fails and does nothing, one of an unknown type always fails, one about nothing never does; an inventory job fails exactly if its service does. |
| `JobOutcomes.SingleRetryMeans` | app/tasks/retry_tasks.py:95-133 | A single retry commits the job resolved, advanced or dead, together with what its execution left; a job that is not there is not retried. |
| `JobOutcomes.RequeueMeans` | app/api/sync_endpoints.py:308-338 | The manual retry makes exactly pending and dead jobs ready from now on with all their retries, durably, and changes no other. |
| `RetryQueue.DurableEffect` | app/tasks/retry_tasks.py:44-74 | After a pass each attempted job is durably resolved or advanced by one step, or exactly as before if its update was undone, and for a pending job the two exclude each other; the last one is never lost and no other job changes. |
| `RetryQueue.UndoneMeans` | app/services/order_sync.py:309-311 | Undone means: the first later execution of the pass that ended the transaction rolled it back. |
| `KnownFailures.SuccessTakenBack` | app/tasks/retry_tasks.py:44-56 | In any pass over a job of an order that is synced already and one whose order fails in processing, the first is reported as succeeded and left as it was. |
| `KnownFailures.ResolutionIsTakenBack` | app/services/order_sync.py:309-311 | A literal run from a new platform that ends with such a pass. |
| `RetryQueue.ExecuteTransaction` | app/services/order_sync.py:299-311 | An execution that leaves, commits or rolls back its transaction keeps all job rows it found there; only a failing one rolls back. |
| `JobRuns.RunCounts` | app/services/order_sync.py:484-500 | Over every run no job row disappears, and the table grows by exactly one row per failed order attempt and per lasting API failure of a product. |
| `QueueRuns.NoFailureForgotten` | app/services/order_sync.py:467-515 | In every reachable state a FAILED order with a non-zero id has an order job that is PENDING or in the dead letter queue. |
| `QueueRuns.OrderZeroIsForgotten` | app/tasks/retry_tasks.py:161-164 | For order 0 that fails, in three steps from a new platform. |
| `QueueRuns.LifeCycle` | app/repositories/failed_job_repo.py:53-159 | Over every run, manual retries included: PENDING exactly while a retry time is set, only with retries left; terminal jobs have a resolution time; RETRYING is unreachable. |
| `QueueRuns.Schedule` | app/repositories/failed_job_repo.py:85-140 | Over every automatic run a job has at most max_retries failed retries, dies only with all of them used, never before its creation plus the sum of its waits, each the next entry of the schedule and then its last, and terminal jobs never change. |
| `QueueRuns.DeadLetterIsLate` | app/repositories/failed_job_repo.py:116-140 | The same said of one dead job. |
| `QueueRuns.PassIsAutomatic` | app/repositories/failed_job_repo.py:85-103 | A pass over an answer of get_ready_for_retry, with a clock that does not run backwards, is automatic, even if increments are rolled back in between. |
| `QueueRuns.ReadyListExists` | app/repositories/failed_job_repo.py:85-103 | The query always has an answer: ready jobs, earliest first, none passed over. |
| `HopelessJobs.HopelessForever` | app/services/product_sync.py:274-296 | No run resolves a product job whose SKU is the code of no template. |
| `HopelessJobs.DerivedSkuIsHopeless` | app/services/product_sync.py:317-335 | Such is the job of a product without a code that failed with an API error, if no template has its derived SKU as code. |
| `HopelessJobs.DerivedSkuIsNobodysCode` | app/services/product_sync.py:317-335 | Which is always so while the SKUs of templates are distinct. |
| `HopelessJobs.FoundSkuResolves` | app/services/product_sync.py:258-298 | If some template has it, an attempt in which no call fails resolves the job, by syncing that template. |
| `ProductService.ProductSyncService.SyncSingleProduct` | app/services/product_sync.py:302-561 | The method does what the template function says on the whole world, failure handlers included; `FailsIff`, `SucceedsAs` and `FailureMarks` say what that is. |
| `ProductService.ProductSyncService.LinkProduct` | app/services/product_sync.py:373-456 | Update the linked product, or drop a dead link, then adopt by SKU or create. |
| `ProductService.ProductSyncService.LinkBySku` | app/services/product_sync.py:412-456 | Adopt the product with this SKU, else create one, and record the link. |
| `TemplateOutcomes.SkippedIff` | app/services/product_sync.py:317-357 | A template is skipped, and nothing changes, exactly if it has no code and none can be derived: it has fewer than two variants, their SKUs yield nothing, or reading them fails. |
| `TemplateOutcomes.SkuMeans` | app/services/product_sync.py:313-335 | A template goes by its own code, and without one by the SKU derived from its variants if it has several. |
| `TemplateOutcomes.RowOfMeans` | app/services/product_sync.py:373-376 | Its row is the one with its Odoo id, else the one with its SKU; there is none only if no row has either. |
| `TemplateOutcomes.FailsIff` | app/services/product_sync.py:302-561 | A template that is not skipped fails exactly if its data cannot be built, it cannot be linked, or it has several variants that cannot be read; a failing variant does not make it fail. |
| `TemplateOutcomes.LinkFailsIff` | app/services/product_sync.py:388-456 | Linking fails exactly if the update of a living product is not heard to succeed; or, where there is none, the lookup, the adoption or the creation fails, or the update of a dead link does so with anything but "not found". |
| `TemplateOutcomes.FailedLinkMeans` | app/services/product_sync.py:373-410 | A link that fails leaves the row found with the id and SKU of the template, its old link and status; or without the row and its variant rows if the link was dead; every other row stays. |
| `TemplateOutcomes.UnheardUpdate` | app/services/product_sync.py:388-410 | An update of a product whose answer is lost fails and is in the shop all the same; one that does not arrive changes nothing there. |
| `TemplateOutcomes.UnheardAdoption` | app/services/product_sync.py:412-438 | The same of the product that is adopted, which is one with the SKU. |
| `TemplateOutcomes.SuccessSettles` | app/services/product_sync.py:388-477 | A template reported as created or updated is settled, whatever else failed: one SYNCED row of the right kind, one living product with the built data, created exactly if that product was not there. |
| `TemplateOutcomes.SucceedsAs` | app/services/product_sync.py:459-466 | And its active variants, in order, are then synced under that product exactly if it has more than one. |
| `TemplateOutcomes.SettledKind` | app/services/product_sync.py:359-361 | The row of a settled template says simple exactly if it has at most one variant. |
| `TemplateOutcomes.SimpleLeavesVariations` | app/services/product_sync.py:459-466 | A template with at most one variant never touches a variation, whatever happens, and no variant row but those it drops with a dead link. |
| `TemplateOutcomes.FailureMarks` | app/services/product_sync.py:495-561 | A failure marks exactly the row with the SKU as FAILED if it is an API error, and no row otherwise. |
| `TemplateOutcomes.ApiFailureIsMarked` | app/services/product_sync.py:526-531 | So after an API error the row of the SKU, if there is one, is FAILED, however far the sync had come. |
| `JobOutcomes.TemplateQueues` | app/services/product_sync.py:514-524 | A template puts one retry for its SKU on the queue exactly if it fails with an API error. |
| `JobOutcomes.FailedProductIsQueued` | app/services/product_sync.py:258-298 | The sync by SKU commits that retry and all else, failed or not, once it has found its template. |
| `JobOutcomes.FullPassMeans` | app/services/product_sync.py:192-256 | A full pass makes durable what it did to the templates it came to, even if a fetch fails; a process that dies in it leaves the database as committed and the shop as changed. |
| `ProductService.ProductSyncService.SyncAllProducts` | app/services/product_sync.py:192-256 | The batch loop terminates, visits every template of the pages served exactly once in order, lists one result for each, its counters count those results and add up to the total, and everything is committed. |
| `ProductService.ProductSyncService.SyncProductBySku` | app/services/product_sync.py:258-298 | One template by its code; a failing search or an unknown SKU does not end the transaction. |
| `ProductService.VariantSyncService.SyncVariants` | app/services/variant_sync.py:50-124 | The loop over active variants and its three counters; a failing variant does not stop it, a failing fetch does. |
| `ProductService.VariantSyncService.SyncSingleVariant` | app/services/variant_sync.py:126-304 | Update by mapping, else adopt by SKU, else create; a failing lookup counts as not found. |
| `TemplateOutcomes.VariantSkippedIff` | app/services/variant_sync.py:138-155 | A variant is skipped exactly if it has no code, and one whose data cannot be built changes nothing. |
| `TemplateOutcomes.VariantRowOfMeans` | app/services/variant_sync.py:200-206 | The row of a variant is the one with its Odoo id, else the one with its SKU; there is none only if no row has either. |
| `TemplateOutcomes.VariantFailsIff` | app/services/variant_sync.py:200-304 | A variant with a code fails exactly if its data cannot be built, or the one call that updates, adopts or creates its variation fails or finds nothing to write to; a failing lookup is no failure. |
| `TemplateOutcomes.UnheardVariationUpdate` | app/services/variant_sync.py:207-220 | The same of the variation of a variant, whose row stays as it was. |
| `TemplateOutcomes.UnheardVariationAdoption` | app/services/variant_sync.py:221-232 | The same of the variation that is adopted, which is one with the SKU under that very product. |
| `TemplateOutcomes.VariantOutcomeMeans` | app/services/variant_sync.py:207-279 | A variant that counts as synced is mirrored under its product, whatever failed; one that fails leaves the variant rows as they were. |
| `TemplateOutcomes.VariantsAreTallied` | app/services/variant_sync.py:81-115 | The loop syncs every variant once and in order, on what those before it left, and its counters count how they ended. |
| `WooShop.WooStore.UpdateProduct` | app/services/woo_client.py:304-308 | Writes an existing product, or answers that there is none; either answer may be lost. |
| `WooShop.WooStore.CreateProduct` | app/services/woo_client.py:103-302 | One request, sent until it is answered or given up: every send that takes effect makes a product under the next id, and the caller hears of the last send only. |
| `VariantSync.SyncVariantKeeps` | app/services/variant_sync.py:200-266 | Whatever fails, variant rows stay unique, under a living parent row, and name variations made under that parent's product. |
| `VariantSync.SmoothVariant` | app/services/variant_sync.py:200-266 | Without failures a variant ends mirrored exactly if its variation was not gone; a mirrored one is left as it is. |
| `VariantSync.OthersUnaffected` | app/services/variant_sync.py:81-107 | Whatever happens to one variant, the row and variation of any other stay. |
| `VariantSync.QuietVariants` | app/services/variant_sync.py:207-220 | A second run over variants that are mirrored or stranded changes nothing. |
| `VariationSkus.DoublesAdds` | app/services/variant_sync.py:253-254 | A variant without a row, a lookup that finds nothing or fails, and a creation of which a send takes effect while the product has a variation with the SKU: it ends with as many more of them as sends took effect. |
| `VariationSkus.UniqueUnlessDoubled` | app/services/variant_sync.py:200-266 | Whatever fails and however often creations are sent while a variant is synced, no two variations of a product share a SKU afterwards if and only if that branch was not taken. |
| `VariationSkus.ListKeepsUnique` | app/services/variant_sync.py:81-107 | The same of the loop over variants in which the branch is never taken. |
| `VariationSkus.TemplateKeepsUnique` | app/services/product_sync.py:302-561 | The same of one template, with its link and its failures. |
| `VariationSkus.PassKeepsUnique` | app/services/product_sync.py:208-236 | The same of a pass over templates. |
| `VariationRuns.RunKeepsUnique` | app/services/variant_sync.py:281-304 | The same of every run, with rollbacks, crashes and deletions. |
| `VariationRuns.NeverLost` | app/services/variant_sync.py:207-220 | Over every run without deletions of single variations no variant is lost. |
| `VariationRuns.DeletedVariationIsLost` | app/services/variant_sync.py:207-211 | Deleting the variation that mirrors a variant loses it. |
| `KnownFailures.RollIsLost` | app/services/variant_sync.py:207-211 | A literal run after which a variant is lost. |
| `KnownFailures.RollIsDoubled` | app/services/variant_sync.py:297-304 | A literal run after which a product has two variations with one SKU. |
| `KnownFailures.RollIsSentTwice` | app/services/woo_client.py:197-207 | A literal run in which every lookup and every call succeeds, the creation of a variation is sent twice, and the product has two variations with one SKU. |
| `ProductSkus.MadeBySync` | app/services/product_sync.py:412-456 | The products made while a template is synced are exactly those of the sends that took effect, if it came to a creation at all. |
| `ProductSkus.DuplicatesAreMade` | app/services/product_sync.py:440-456 | A creation sent again after it took effect: every send is a product with that SKU, where there was none. |
| `ProductSkus.UniqueUnlessDuplicated` | app/services/product_sync.py:302-561 | Whatever fails while a template is synced, no two products share the SKU of a template, and no template has two products as its business, if and only if that did not happen. |
| `ProductSkus.PassKeepsUnrivalled` | app/services/product_sync.py:208-236 | The same of a pass over templates. |
| `ProductRuns.RunKeepsUnrivalled` | app/services/woo_client.py:132-222 | The same of every run, with rollbacks, crashes and deletions. |
| `KnownFailures.ProductCanBeSentTwice` | app/services/woo_client.py:197-207 | Any template whose creation is sent again in an empty shop ends with all of these products. |
| `KnownFailures.TurfIsSentTwice` | app/services/woo_client.py:197-207 | A literal run that ends with two products of one SKU. |
| `ProductSync.LinkProductGood` | app/services/product_sync.py:388-456 | Linking keeps the catalogue invariant and, if it succeeds, leaves the template settled: one SYNCED row, one living product with the built data. |
| `ProductSync.ParentRowIsSettled` | app/services/product_sync.py:461-466 | The variants of a linked template get the id of its own row; the fallback id 0 is never used. |
| `ProductSync.SyncSingleProductKeeps` | app/services/product_sync.py:302-561 | Any sync of one template keeps the catalogue invariant, for the session and for what a rollback may bring back. |
| `CatalogueFrames.SyncKeepsSound` | app/services/product_sync.py:302-561 | The same together with the home of every variant row. |
| `CatalogueFrames.SyncIsUnseen` | app/services/product_sync.py:373-456 | Syncing one template leaves the row and the product of any other alone. |
| `CatalogueFrames.SyncIsUnseenByVariant` | app/services/variant_sync.py:126-279 | And the rows and variations of their variants. |
| `CatalogueFrames.SyncNeverRelinks` | app/services/product_sync.py:388-456 | A row that has a WooCommerce id keeps it or is deleted. |
| `Heritage.SyncIsOwnBusiness` | app/services/product_sync.py:388-456 | Whatever fails while a template is synced, no product goes, only the one it carries the SKU of or is linked to is written, and one is made only if there was none. |
| `Heritage.SyncInherits` | app/services/product_sync.py:412-456 | So every product stays the business of the templates it was the business of, in the session and after a rollback. |
| `Heritage.SettledHeritage` | app/services/product_sync.py:412-456 | However a settled state was reached, each template that had a product is settled on one it had, each other one on a new product, and the rest of the shop is untouched. |
| `CataloguePass.PassKeepsSound` | app/services/product_sync.py:208-236 | Any full pass, whatever fails in it, keeps the catalogue invariant. |
| `CataloguePass.Converges` | app/services/product_sync.py:204-236 | A pass without failures settles every template with a SKU, on a living product that carried its SKU or was linked, else on a new one; keeps every product and leaves those of no template untouched; mirrors every variant that was not lost; and creates exactly the products that were missing. |
| `CataloguePass.OneRowOneProduct` | app/database/models.py:89-91 | In a settled state the row of a SKU is the only one, and if no template has two products, so is its product. |
| `CataloguePass.SecondPassIsQuiet` | app/services/product_sync.py:388-398 | An immediate second pass creates nothing, fails nowhere, and leaves rows and shop exactly as they are. |
| `CatalogueRuns.RunConsistent` | app/database/models.py:89-127 | Over every run with failures, repeated sends, crashes and deletions of products and of single variations: no row is claimed by two templates, a row linked to the product that carries a SKU is the row of that template, variant rows lie under the row of their product, every SYNCED row has a WooCommerce id. |
| `CatalogueRuns.RecoveryConverges` | app/services/product_sync.py:254-255 | After any run, deletions included, and the loss of everything uncommitted, one pass without failures converges from what is left, adopting the products the shop holds and creating exactly those it lacks. |
| `CrashRecovery.RecoveredAdopts` | app/services/product_sync.py:412-456 | Measured from before the interrupted run: every template that had a product ends linked to one it had, and the shop holds the products there were, the missing ones, and exactly the surplus of creations sent again. |
| `CrashRecovery.ProductAccount` | app/services/product_sync.py:412-456 | Over every run without deletions of products: products in the shop equal those of the start, plus the templates that got the product they needed, plus the surplus of creations sent again after they took effect. |
| `CrashRecovery.SameAsUninterrupted` | app/services/product_sync.py:204-256 | A run that failed, lost rows, missed answers or sent twice anywhere, then recovered, links every SKU as an undisturbed pass would have: to the very product that was there, else to a new one; and holds as many products, but for that surplus. |
| `CrashRecovery.SameVariants` | app/services/variant_sync.py:81-107 | And mirrors the same variants under them: those not lost, which without deletions of single variations are all. |
| `CatalogueRuns.StepIsBatch` | app/services/product_sync.py:192-298 | What any operation does to rows and shop is a pass over the templates it syncs, then perhaps the end of the transaction. |
| `CatalogueRuns.LinksNeverReplaced` | app/services/product_sync.py:388-410 | Over every run a product row's WooCommerce id is never replaced in place. |
| `Inventory.InventorySyncService.SyncAllInventory` | app/services/inventory_sync.py:78-141 | Every product without an error holds all the stock it owes, nothing else was written, total is updated plus failed, and there is one error per failed product, each naming a SYNCED row, or a single one if the listing failed; without failing calls nothing fails. |
| `Inventory.InventorySyncService.SyncSimpleProductStock` | app/services/inventory_sync.py:180-209 | The stock of the first active variant, or nothing if there is none; it fails exactly if the search does, or a quantity is owed and the product is not linked, not there, or the call fails. |
| `Inventory.InventorySyncService.SyncVariableProductStock` | app/services/inventory_sync.py:211-261 | The stock of every mapped variation whose variant Odoo has, looked up by its id among the active products; the first failure ends the loop: rows before it hold what they owe, rows after it are untouched. |
| `Inventory.InventorySyncService.SyncProductInventory` | app/services/inventory_sync.py:143-178 | One product by SKU: skipped exactly if no row with it is linked; a success leaves all it owes in the shop and commits, a failure wrote nothing else and does not; without failing calls it does not fail. |
| `Inventory.StockOf` | app/services/inventory_sync.py:198-200 | Whole units on hand, and none for a negative quantity. |
| `Inventory.VariantWithIdMeans` | app/services/inventory_sync.py:227-241 | The search answers the first active product with that very id, and nothing only if there is none. |
| `Inventory.LaterWritesElsewhere` | app/services/inventory_sync.py:94-103 | Writing what one row owes never disturbs what another owes. |
| `Inventory.EveryRunCanBeStocked` | app/services/product_sync.py:388-456 | Over every run the keys that this rests on are unique and every SYNCED row is linked. |
| `CatalogueConsumers.RecoveredCanBeStocked` | app/services/inventory_sync.py:94-113 | After a run without deletions of single variations and a pass without failures, the shop has a slot for everything that the row of each template owes. |
| `Pricelist.OdooPricelistHelper.Load` | app/services/product_sync.py:49-107 | After loading, every lookup in the four indexes answers what a scan of the items fetched would; a failing load leaves the helper unloaded. |
| `Pricelist.OdooPricelistHelper.GetPrice` | app/services/product_sync.py:109-139 | The indexed price is the scanned one: the last match of the most specific tier, else the base price. |
| `Pricelist.WinnerMeans` | app/services/product_sync.py:109-139 | The price is that of the rule that reaches the query, than which none is more specific and none as specific comes later; the base price only if none reaches it. |
| `Pricelist.PriceMeans` | app/services/product_sync.py:141-152 | A fixed rule sets its price, a percentage takes its share off, a formula takes its discount off and adds its surcharge, any other leaves the base price. |
| `Pricelist.FetchedMeans` | app/services/product_sync.py:57-70 | All rules are read, up to the first ten thousand. |
| `Pricelist.LastMatchMeans` | app/services/product_sync.py:73-90 | The scan finds the last matching well-formed item, and none only if there is none. |
| `Pricelist.MonotoneMeans` | app/services/product_sync.py:141-152 | A rule is monotone in the base price exactly if it cuts at most 100 percent. |
| `Pricelist.ResolvedPriceIsMonotone` | app/services/product_sync.py:109-152 | The resolved price is monotone in the base price exactly if the winning rule is. |
| `Pricelist.PercentageStaysWithin` | app/services/product_sync.py:145-147 | A percentage rule keeps every price between zero and the base exactly if it is between 0 and 100. |
| `WooClient.Request` | app/services/woo_client.py:103-222 | At most max_retries + 1 attempts; a value exactly if one of them answers below 400 after only 429, 5xx or transport errors; own back-off at most 2 to the max_retries minus 1 seconds; every other outcome determined. |
| `WooClient.SleptExactly` | app/services/woo_client.py:158-218 | While nothing is answered 429, the client sleeps 1, 2, 4, ... seconds between attempts and not after the last: 2 to the n minus 1 in all after n of them. |
| `WooClient.RateLimitedIsNotSlept` | app/services/woo_client.py:148-157 | An answer 429 adds nothing to this. |
| `WooClient.DefaultSleep` | app/services/woo_client.py:132-222 | A request that is never answered takes seven seconds of sleep with three retries. |
| `WooClient.Post` | app/services/woo_client.py:103-240 | A creating request is a posting: at most max_retries sends before the last take effect unheard, at most max_retries + 1 take effect, and the last one was heard to succeed exactly if a value is returned. |
| `WooClient.EveryPostingHappens` | app/services/woo_client.py:132-222 | Every posting within that bound is what some answers, time-outs and effects make of the loop. |
| `WooClient.GetAll` | app/services/woo_client.py:258-294 | Exactly the first min(N, max_pages * per_page) records. |
| `RateLimiter.RateLimiterMiddleware.Count` | app/middleware/rate_limiter.py:74-84 | The count is the number of distinct seconds of the window in which the key was hit, denied hits included; expiry of the key makes no difference. |
| `RateLimiter.RateLimiterMiddleware.Dispatch` | app/middleware/rate_limiter.py:45-108 | The limit is that for webhooks exactly if the path begins like theirs, counted apart; a request is denied exactly if it is counted and the seconds of its window that were hit exceed that limit. |
| `RateLimiter.NothingLeftToCount` | app/middleware/rate_limiter.py:81 | Once a key may have expired, nothing it held could still be counted. |
| `RateLimiter.CountIsBounded` | app/middleware/rate_limiter.py:74-84 | The count never exceeds the window's length in seconds. |
| `RateLimiter.DeniesAtAll` | app/middleware/rate_limiter.py:86 | A limit can deny a request exactly if it is lower than its window is long. |
| `RateLimiter.DefaultLimits` | app/config/settings.py:98-101 | The default general limit never denies, the default webhook limit can. |

## Assumptions

* Events are atomic and follow one another; two syncs of one order at the same time are outside the model (the code
  takes no lock).
* Ids handed out by Odoo and WooCommerce are positive and never reused, and the order fetched for an id carries that
  id.
* The shop takes a SKU that is taken already. One that refuses it answers 400, and no send takes effect while the SKU
  is there: `VariationSkus.Doubles` and `ProductSkus.Duplicates` are then never true, and SKUs stay unique over every
  run.
* One create call to Odoo takes effect at most once: its client executes a call again only after a fault that says
  that the session has expired (app/services/odoo_client.py:166-173), and a fault undoes what the call did. The
  account of sale orders and the uniqueness of partners rest on it.
* A process may die between any two operations and anywhere in an order sync. A death in the middle of one template is
  the death right after it, with the calls it did not come to failing without effect.
* "Not found" is answered only for what is really gone. A product or variation query that fails is a failure, not an
  empty answer, except where the code itself swallows it.
* The catalogue theorems start from tables without conflicts (`CatalogueFrames.CatalogueSound`): unique SKUs and ids
  in Odoo and in the tables, and no mapped row that two templates claim. Swapping the SKUs of two mapped templates,
  and integrity errors in the middle of a flush, are excluded by that condition; a new platform meets it, and every
  run keeps it.
* Odoo's catalogue does not change during a run. Search by code and listing read the same templates.
* One reading of the clock serves a whole job attempt, and a job's creation time is the reading with which its first
  retry is scheduled.

## Left out

- Addresses, names, phone numbers, country and state lookups: copied field by field, no state depends on them.
- Product payloads: the data built from an Odoo record is one opaque value; categories, images, attributes, metadata and text are inside it.
- How a parent SKU is made from those of the variants (app/services/product_sync.py:721-739): `derived` is a column of the template, and any string may stand there.
- Stock written by product sync: variation payloads carry a stock quantity too (app/services/variant_sync.py:184, not limited below); here stock is a map of its own, written by inventory sync alone.
- Sync logs, list endpoints, health checks, webhook registration, signatures, transport, authentication and configuration.
- Database failures: a flush or commit always succeeds.
- Identity of row objects: rows are values under their primary key; the row found before a rollback is looked up again after it, which is the same one because order rows are never left uncommitted.
- Jobs of an unfinished product pass: a pass that is cut short loses its uncommitted rows and jobs together.
- Real workers: an interleaving of two sessions is not modelled.
- Floating-point rounding: prices and quantities are reals.
- Non-ASCII e-mail addresses: case folding and blanks are those of ASCII.
- Stock in runs: it is kept beside the `World`, whose pass function takes as an input how an inventory job ended; `RetryTasks.RetryWorker` runs that job and proves which input it was.
- `QueueRuns.NoFailureForgotten`: leaves out order id 0, for which it is false (`OrderZeroIsForgotten`).
- `CataloguePass.Converges`: leaves out variants whose variation was deleted under a living product, because the code does (`KnownFailures.RollIsLost`); every other variant is mirrored.
- `OrderLines.ThreeTiersAgree`: asks for a non-empty SKU, which the loop over the items guarantees, and for unique active codes in Odoo.
- `CrashRecovery.SameAsUninterrupted`: leaves out runs in which products are deleted in the shop, because those have no undisturbed counterpart (`CatalogueRuns.RecoveryConverges` covers them from what is left), and starts where no template has two products, among which the choice would be the shop's.
- `CrashRecovery.SameVariants`: says that both platforms mirror a variant, not that they do so with the same variation when the shop already had one.
- `WooClient.GetAll`: the records do not change between two pages, and a page that fails raises.
- `WooClient.Request`: the time spent waiting for Retry-After headers is not bounded, because the shop sets it.
- `RateLimiter.RateLimiterMiddleware.Dispatch`: windows are at least one second, and Redis and the application share one clock.
