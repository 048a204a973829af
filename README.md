# Car-wash backend: service orders and business rules

This project models the back end of a multi-tenant car-wash management system:

- Every company (`Empresa`) owns its customers, vehicles, washers (`Lavador`), services and add-ons (`Servico`, `Adicional`), vehicle types and categories.
- A company's service orders (`OrdemServico`) move through PENDENTE, EM_ANDAMENTO, FINALIZADO or CANCELADO.
- An order's total is the sum of its priced items, and its washer earns a percentage commission on that total.
- Orders are numbered per company.
- Payments set the order's `pago` flag when the PAGO payments cover the total.
- An end-of-day sweep closes the open orders of companies that ask for it.
- Notifications are stored according to per-company preferences.

The store is one Dafny class, `Store.Db`, with a map per table. Handlers are methods on it. Each handler states the error it answers with, and the exact new contents of every table it writes. Every handler keeps `Db.Valid()`, which covers two things:

- referential integrity: orders, vehicles, items and payments point at existing records;
- unique vehicle plates.

Pure rules are written as functions, with lemmas that relate them. These rules cover pricing, commission, numbering, status filters, pagination, time parsing, patches and notification gating.

Modules:

- `Common`: options, results, JSON input fields, fresh keys, numerals, splitting.
- `Store`: records, tables, validity, `Db`.
- `Notifications`: `notificationService`.
- `Payments`: `pagamentoController`.
- `OrderPricing`, `Orders`, `OrderQueries` and `Sweep`: the newer `ordemController`.
- `LegacyOrders`: the compiled `ordemController`.
- `Washers`: `lavadorController`.
- `Services` and `LegacyServices`: the newer and the compiled `servicoController`.
- `Customers`: `clienteController`.
- `Companies`: `empresaController`.
- `VehicleTypes`: `tipoVeiculoController`.
- `Categories`: `categoriaController`.

Inputs the model receives as parameters instead of reading them itself:

- the clock: the minute of the day the sweep runs at, and the timestamp written into records;
- the washer's order history, in the order the database returns it;
- the column defaults of a new company.

## Model

Some compiled files under `backend/dist` apply the same rules as their `backend/src` twins, so one member covers both versions:

- `Payments.CreatePagamento` also models pagamentoController.js:9-80.
- `Payments.VerificarStatusPagamentoOrdem` also models pagamentoController.js:285-306.
- `Payments.UpdatePagamentoStatus` also models pagamentoController.js:117-175.
- `Payments.DeletePagamento` also models pagamentoController.js:179-204.
- `Notifications.CreateNotification` also models notificationService.js:12-52.
- `Orders.CancelOrdem` also models ordemController.js:476-494.
- `Services.DeleteServico` also models servicoController.js:509-547.
- `Services.DeleteAdicional` also models servicoController.js:551-589.

| member | source | states |
|---|---|---|
| Orders.ResolveCliente | backend/src/controllers/ordemController.ts:43-67 | without a clienteId and with a named inline customer, the order gets the company's customer with that name and phone, or else a new customer at a fresh key; otherwise the table is unchanged and the given clienteId is used |
| Orders.ResolveVeiculo | backend/src/controllers/ordemController.ts:69-94 | with an inline plate, a vehicle with that plate (in any company) is reused, else a new vehicle of the resolved customer is created, which fails when that customer is missing; without one, the given veiculoId is used |
| Orders.NewPlateKeepsUnique | backend/src/controllers/ordemController.ts:72-93 | a vehicle is inserted only for a plate no vehicle has, so plates stay unique |
| Orders.ConflictIsForRequest | backend/src/controllers/ordemController.ts:97-110 | the active-order query on the vehicle id the resolution produces answers exactly the question "does the request's vehicle have an active order": the given vehicle, the one already carrying the plate, and never a vehicle made for this order |
| Orders.InitialStatus | backend/src/controllers/ordemController.ts:195 | a new order is EM_ANDAMENTO exactly when it has a washer, and active either way |
| Orders.NumeroText | backend/src/controllers/ordemController.ts:213 | a present order number is written as its decimal numeral |
| Orders.PricedLinesResolve | backend/src/controllers/ordemController.ts:113-160 | every priced line points at an existing service or add-on |
| Orders.NewOrdem | backend/src/controllers/ordemController.ts:168-198 | the created order has the given number and company, the priced items, total = sum of subtotals, the washer's commission on that total, the initial status, no payment flag and no finish time |
| Orders.PlanCreateOrdem | backend/src/controllers/ordemController.ts:33-208 | 400 for missing customer, vehicle or items; 409 exactly when the vehicle the request resolves to has a PENDENTE or EM_ANDAMENTO order of the company and creation is not forced; success exactly when, besides, customer and vehicle exist or are created, every item prices and a named washer exists (500 otherwise); on success the items are priced from the catalogue, the number is the company's next, and customer and vehicle are the resolved ones |
| Orders.FinishCreatePlan | backend/src/controllers/ordemController.ts:113-198 | once customer and vehicle are resolved, success exactly when every item prices and customer, vehicle and washer exist; every failure is a 500 |
| Orders.CreatedKeepsValid | backend/src/controllers/ordemController.ts:186-198 | committing a plan that meets those conditions keeps the store valid |
| Orders.ValidAfterCreate | backend/src/controllers/ordemController.ts:186-198 | customer and vehicle tables that only grow, plus an order whose references exist, keep the store valid |
| Orders.ApplyPlan | backend/src/controllers/ordemController.ts:186-198 | the store takes the planned customer and vehicle tables, and the order table gains exactly the new order |
| Orders.CreateOrdem | backend/src/controllers/ordemController.ts:21-233 | 401 without a company, 400 for missing data, 409 exactly in the conflict case of the plan; success exactly when the plan's conditions hold; on any error no table changes; on success only the new order is added, it meets the creation conditions against the old tables, and an ordemCriada notification is stored when the company's preferences allow it |
| Orders.FinalizationCommission | backend/src/controllers/ordemController.ts:535-544 | unless the update moves the order into FINALIZADO, the commission computed before stands |
| Orders.UpdatedCommissionConsistent | backend/src/controllers/ordemController.ts:521-544 | with the corrected rule, an update leaves the commission equal to the kept washer's rate on the new total |
| Orders.UpdatedCommissionAsWrittenDropsCommission | backend/src/controllers/ordemController.ts:521-531 | as written, editing only the notes of an 80.00 order whose washer earns 25% drops its commission from 20.00 to 0 |
| Orders.UpdatedCommissionAgreesWithWasherGiven | backend/src/controllers/ordemController.ts:521-531 | whenever the request names a washer, the commission as written and the intended one are equal |
| Orders.UpdatedOrdem | backend/src/controllers/ordemController.ts:477-548 | the updated order keeps its company, number, customer, vehicle and payment flag; it takes the requested washer, notes, status, items and total and the finish time of the rules above; its commission is the intended rule `Orders.UpdatedCommission`, not lines 521-531 as written (see Findings) |
| Orders.PlanUpdateOrdem | backend/src/controllers/ordemController.ts:484-548 | succeeds exactly when the status is valid, every new item prices within the company and a given washer exists (500 otherwise); the result is the updated order, with the intended commission, and its references still resolve |
| Orders.UpdateOrdem | backend/src/controllers/ordemController.ts:463-577 | 404 outside the tenant; otherwise success exactly when the update is accepted; errors change nothing; success rewrites only that order, with the intended commission, and stores an ordemEditada notification when enabled |
| Orders.CancelableIsActive | backend/src/controllers/ordemController.ts:599 | an order can be cancelled exactly when it is PENDENTE or EM_ANDAMENTO |
| Orders.CancelOrdem | backend/src/controllers/ordemController.ts:582-609 | 404 outside the tenant; 400 for a FINALIZADO or CANCELADO order; otherwise only its status becomes CANCELADO |
| Orders.ValidAfterOrdemDelete | backend/src/controllers/ordemController.ts:900-919 | removing an order together with its payments keeps the store valid |
| Orders.RemoveOrdem | backend/src/controllers/ordemController.ts:900-919 | the order and its payments are gone, and the store stays valid |
| Orders.DeleteOrdem | backend/src/controllers/ordemController.ts:881-935 | 404 exactly outside the tenant, changing nothing; otherwise the order with its items and its payments is removed, and an ordemDeletada notification is stored when enabled |
| OrderPricing.UnitPrice | backend/src/controllers/ordemController.ts:119-143 | a price is found exactly when the service or add-on exists (and, on update, belongs to the company), and it is the stored price |
| OrderPricing.PriceLine | backend/src/controllers/ordemController.ts:127-135 | an item is priced exactly when it has an id, a quantity (positive on update) and a known kind, and its price is found; the line copies kind, id and quantity and its subtotal is unit price times quantity |
| OrderPricing.PriceLines | backend/src/controllers/ordemController.ts:114-160 | the items price exactly when every one of them does, giving one line per item, in order, each that item's line |
| OrderPricing.SumSubtotalsAppend | backend/src/controllers/ordemController.ts:113-160 | the total of concatenated lines is the sum of the parts' totals |
| OrderPricing.PriceLinesAppend | backend/src/controllers/ordemController.ts:114-160 | a concatenation of item lists prices exactly when both parts do, giving the parts' lines and the sum of their totals |
| OrderPricing.AllPricedAppend | backend/src/controllers/ordemController.ts:114-160 | every item of a concatenation is priceable exactly when every item of each part is |
| OrderPricing.LinesAppend | backend/src/controllers/ordemController.ts:114-160 | the lines of a concatenation are the lines of the parts, in order |
| OrderPricing.PriceItemsForUpdate | backend/src/controllers/ordemController.ts:484-518 | the update's item loop fails exactly when some item cannot be priced within the company, and otherwise returns every item's line and their total |
| OrderPricing.CommissionBounds | backend/src/controllers/ordemController.ts:168-175 | for a rate of at most 100 and a non-negative total, the commission lies between 0 and the total |
| OrderPricing.CommissionAdditive | backend/src/controllers/ordemController.ts:168-175 | the commission on a sum of totals is the sum of the commissions |
| OrderPricing.NextNumeroOrdem | backend/src/controllers/ordemController.ts:178-183 | the next number is at least 1 and above every number of the company, and when it exceeds 1 the number before it is the company's largest |
| OrderQueries.NoStatusMatchesAll | backend/src/controllers/ordemController.ts:275-284 | a missing or empty status parameter matches every order |
| OrderQueries.ActiveFilterIsActive | backend/src/controllers/ordemController.ts:275-284 | the ACTIVE keyword matches exactly PENDENTE and EM_ANDAMENTO |
| OrderQueries.CommaListFilter | backend/src/controllers/ordemController.ts:275-284 | two or more names joined by commas filter for exactly the listed names |
| OrderQueries.ExactFilter | backend/src/controllers/ordemController.ts:275-284 | a status name matches exactly the orders in that status |
| OrderQueries.UnknownStatusNameFails | backend/src/controllers/ordemController.ts:275-284 | a single name that is not a status, such as `FOO`, makes the listing fail with 500 |
| OrderQueries.KnownStatusFiltersAccepted | backend/src/controllers/ordemController.ts:275-284 | no filter, `ACTIVE` and any one status name are accepted with the filter they stand for |
| OrderQueries.PlainStatusName | backend/src/controllers/ordemController.ts:275-284 | a status name is non-empty, is not ACTIVE and has no comma, so it takes the exact branch |
| Common.NumeralValue | backend/src/controllers/ordemController.ts:252-254 | `Number` gives a value exactly for decimal digits (the empty string is 0) and for a minus followed by digits, and then that integer |
| Common.NumeralValueOfIntToString | backend/src/controllers/ordemController.ts:252-254 | every integer written in decimal, negative ones included, reads back through `Number` as itself |
| OrderQueries.PaginationDefaults | backend/src/controllers/ordemController.ts:252-254 | a missing, non-numeric or zero page and limit give page 1, limit 10 and offset 0 |
| OrderQueries.PageOfNumeral | backend/src/controllers/ordemController.ts:252-254 | a positive numeral n given as page or limit is n |
| OrderQueries.NegativePageSkipsBackwards | backend/src/controllers/ordemController.ts:252-254 | a page "-n" is read as -n and gives a negative offset, which the handler does not guard against |
| Sweep.ParseTimeOfNumerals | backend/src/controllers/ordemController.ts:956-960 | two numerals joined by ':' are hours times 60 plus minutes, negative parts included, as `setHours` counts them |
| Sweep.ClosingMinute | backend/src/controllers/ordemController.ts:956-957 | a non-empty configured time is parsed; otherwise 19:00 is |
| Sweep.ParseTimeOfParts | backend/src/controllers/ordemController.ts:956-960 | a time that splits at ':' into two numerals is hours times 60 plus minutes |
| Sweep.ParseTimeOfDigits | backend/src/controllers/ordemController.ts:956-960 | "HH:MM" written in digits is HH times 60 plus MM |
| Sweep.ClosingMinuteOfDigits | backend/src/controllers/ordemController.ts:956-960 | a configured "HH:MM" closes at HH times 60 plus MM |
| Sweep.NegativeClosingHourAlwaysDue | backend/src/controllers/ordemController.ts:956-963 | an eligible company whose closing time has a negative hour, such as "-1:00", is due at every minute of the day |
| Sweep.DefaultClosingMinute | backend/src/controllers/ordemController.ts:956-960 | a missing or empty closing time is minute 1140, 19:00 |
| Sweep.ClosingWithoutMinutes | backend/src/controllers/ordemController.ts:956-960 | a non-empty time without ':' has no closing minute, so that company is never due |
| Sweep.FinalizeSet | backend/src/controllers/ordemController.ts:981-999 | the chosen orders are finalised, every other order is untouched, and no order appears or disappears |
| Sweep.FinalizeSetTwice | backend/src/controllers/ordemController.ts:971-999 | finalising one set and then another is finalising their union |
| Sweep.FinalizeSetStep | backend/src/controllers/ordemController.ts:971-999 | finalising one more order extends the finalised set by that order |
| Sweep.PaidOnceStep | backend/src/controllers/ordemController.ts:971-999 | adding one payment for one more order keeps "exactly one new payment per finalised order, old payments unchanged" |
| Sweep.FinalizeOrdens | backend/src/controllers/ordemController.ts:971-999 | the loop finalises exactly the company's PENDENTE and EM_ANDAMENTO orders, returns how many, and adds exactly one PENDENTE payment per order |
| Sweep.Announcement | backend/src/controllers/ordemController.ts:1003-1013 | the announcement is addressed to the company, is of type finalizacaoAutomatica and is unread |
| Sweep.SweptUpToStart | backend/src/controllers/ordemController.ts:955-1019 | before any company is processed, the loop invariant holds with nothing changed |
| Sweep.UntouchedCompany | backend/src/controllers/ordemController.ts:955-1019 | processing other companies leaves a company's open orders as they were |
| Sweep.PaidOnceCompose | backend/src/controllers/ordemController.ts:955-1019 | one payment per order for two disjoint batches makes one payment per order for both |
| Sweep.AnnouncedOnceStep | backend/src/controllers/ordemController.ts:955-1019 | announcing to one more company keeps "exactly one new notification per announced company" |
| Sweep.AnnouncedInStep | backend/src/controllers/ordemController.ts:955-1019 | a company joins the announced set exactly when it had orders to close and enables the notification |
| Sweep.AnnounceCompany | backend/src/controllers/ordemController.ts:1003-1013 | the loop's notification step extends the announcement invariant by the company just processed |
| Sweep.SweepCompany | backend/src/controllers/ordemController.ts:971-1013 | one pass of the loop body extends the sweep invariant by one due company |
| Sweep.SweepCompanies | backend/src/controllers/ordemController.ts:955-1019 | after the loop, exactly the open orders of due companies (active, automatic finalisation on, past closing time) are finalised, each with one new payment, and each announced company has one new notification |
| Sweep.ValidAfterSweep | backend/src/controllers/ordemController.ts:999 | the finalised orders with their new payments keep the store valid |
| Sweep.WriteSweep | backend/src/controllers/ordemController.ts:999 | the store takes the swept orders, payments and notifications and stays valid |
| Sweep.ProcessarFinalizacoesAutomaticas | backend/src/controllers/ordemController.ts:941-1023 | the store after the handler is the sweep of all due companies at the given clock, and stays valid |
| Sweep.SweepTouchesOnlyDue | backend/src/controllers/ordemController.ts:945-999 | an order changes exactly when it is an open order of a due company, and then becomes FINALIZADO at `now` |
| Sweep.SweepLeavesNoActive | backend/src/controllers/ordemController.ts:945-999 | no due company keeps a PENDENTE or EM_ANDAMENTO order |
| LegacyOrders.FirstRowOf | backend/dist/controllers/ordemController.js:73-84 | the row found is the first one for the vehicle's category, or none when no row has it |
| LegacyOrders.CategoryPrice | backend/dist/controllers/ordemController.js:73-84 | a price exists exactly when some row has the category, and it is the first such row's price |
| LegacyOrders.LookupPrice | backend/dist/controllers/ordemController.js:65-112 | 404 exactly when the company does not offer the service or add-on, 400 exactly when it has no price row for the category, otherwise that row's price |
| LegacyOrders.LegacyItemOutcome | backend/dist/controllers/ordemController.js:56-125 | an item with a missing type or id, a `null` or non-positive quantity or an unknown type is a 400; an item not offered is a 404; only a missing quantity leads to an unpriced item; a priced line copies type, id and quantity, takes the category price and has subtotal = price times quantity |
| LegacyOrders.ScanFailsIffRejected | backend/dist/controllers/ordemController.js:56-128 | the item loop fails exactly when some item is rejected |
| LegacyOrders.ScanFailsAtFirstRejection | backend/dist/controllers/ordemController.js:56-128 | the error reported is that of the first rejected item |
| LegacyOrders.ScanNotesMissingQuantity | backend/dist/controllers/ordemController.js:56-128 | a loop that completes records a missing quantity exactly when some item has none |
| LegacyOrders.ScanPricesEveryItem | backend/dist/controllers/ordemController.js:56-128 | a loop with no rejection and no missing quantity gives one priced line per item, in order |
| LegacyOrders.ScanErrorSticks | backend/dist/controllers/ordemController.js:56-128 | once a prefix of the items fails, later items do not change the result |
| LegacyOrders.PriceItemsByCategory | backend/dist/controllers/ordemController.js:54-128 | the loop returns the first item error, a 500 when some quantity is missing (the insert refuses it), or the lines with their total |
| LegacyOrders.PlanLegacyCreate | backend/dist/controllers/ordemController.js:12-128 | 400 for missing fields; 404 for a customer outside the tenant or a vehicle not the customer's; 400 for a vehicle without category; 404 for a washer that is not an active washer of the company; otherwise the outcome of the item loop |
| LegacyOrders.LegacyCreatedOrdem | backend/dist/controllers/ordemController.js:130-141 | the created order is EM_ANDAMENTO exactly with a washer (active either way), has one line per item, total = sum of subtotals, the requested customer, vehicle and washer, no commission and no payment flag |
| LegacyOrders.LegacyCreatedResolves | backend/dist/controllers/ordemController.js:130-141 | the created order's customer, vehicle, washer and items all exist |
| LegacyOrders.PlanIsCreated | backend/dist/controllers/ordemController.js:12-141 | an accepted plan is the order the handler stores |
| LegacyOrders.LegacyCreateOrdem | backend/dist/controllers/ordemController.js:9-192 | 400 for missing fields; errors change nothing; success exactly when the checks pass and every item is priced, and then one order is added at a fresh key and the store stays valid |
| LegacyOrders.StatusFollowsWasher | backend/dist/controllers/ordemController.js:408-412 | without a status, a given washer makes the order EM_ANDAMENTO, a null washer makes it PENDENTE and unassigned, and no washer field keeps the status |
| LegacyOrders.LegacyUpdateFields | backend/dist/controllers/ordemController.js:409-419 | only status, washer, notes and finish time can change; FINALIZADO sets the finish time to `now`; a given status is the parsed name |
| LegacyOrders.LegacyUpdateOrdem | backend/dist/controllers/ordemController.js:374-471 | 404 outside the tenant, 400 for an invalid status, 404 for a washer that is not an active washer of the company; otherwise exactly that order is rewritten |
| Payments.ParseMetodo | backend/src/controllers/pagamentoController.ts:37-42 | a parsed method's name is the input, and every string outside DINHEIRO, PIX, CARTAO and PENDENTE is refused |
| Payments.ParseMetodoName | backend/src/controllers/pagamentoController.ts:37-42 | every method's name parses back to it |
| Payments.ParseStatusPagamento | backend/src/controllers/pagamentoController.ts:150-155 | a parsed status's name is the input, and every string outside PENDENTE, PAGO and CANCELADO is refused |
| Payments.StatusForMetodo | backend/src/controllers/pagamentoController.ts:57 | the method PENDENTE gives a PENDENTE payment and every other method a PAGO one; never CANCELADO |
| Payments.SumValorPick | backend/src/controllers/pagamentoController.ts:327 | the sum over a set of payments is any one payment's value plus the sum over the rest |
| Payments.SumValorFrame | backend/src/controllers/pagamentoController.ts:327 | the sum depends only on the values of the payments in the set |
| Payments.WithPago | backend/src/controllers/pagamentoController.ts:327-335 | the order's flag becomes "PAGO payments sum to at least the total"; every other order is untouched |
| Payments.TotalPagoAfterInsert | backend/src/controllers/pagamentoController.ts:327-328 | a new payment adds its value to the order's paid total exactly when it is a PAGO payment of that order |
| Payments.TotalPagoAfterRemove | backend/src/controllers/pagamentoController.ts:327-328 | removing a payment subtracts its value exactly when it was a PAGO payment of that order |
| Payments.SumPago | backend/src/controllers/pagamentoController.ts:327 | the loop's sum is the order's paid total |
| Payments.VerificarStatusPagamentoOrdem | backend/src/controllers/pagamentoController.ts:313-336 | the order's `pago` is recomputed from its PAGO payments, and no other order changes |
| Payments.CreatePagamento | backend/src/controllers/pagamentoController.ts:14-91 | 400 for missing fields; 404 for an order outside the tenant; otherwise success exactly for a valid method and a positive value; errors change nothing; success adds one payment with the method's status and payment time and recomputes the order's `pago` |
| Payments.UpdatePagamentoStatus | backend/src/controllers/pagamentoController.ts:132-194 | 404 outside the tenant; otherwise success exactly for a valid status; errors change nothing; success writes the status and its payment time and recomputes the order's `pago` |
| Payments.DeletePagamento | backend/src/controllers/pagamentoController.ts:199-227 | 404 exactly outside the tenant, changing nothing; otherwise the payment is removed and the order's `pago` is recomputed |
| Notifications.DefaultGate | backend/src/services/notificationService.ts:36-38 | a type without a preference entry is enabled exactly when it is not ordemDeletada |
| Notifications.NonObjectPrefsAreEmpty | backend/src/services/notificationService.ts:36-38 | null or scalar preferences gate like the empty object |
| Notifications.GateIsStrict | backend/src/services/notificationService.ts:36-38 | an entry that is neither true nor false gates like no entry: only true enables ordemDeletada and only false disables any other type |
| Notifications.Notify | backend/src/services/notificationService.ts:26-54 | nothing is stored exactly when the company is missing or the type is disabled; otherwise one unread notification is added at a fresh key |
| Notifications.CreateNotification | backend/src/services/notificationService.ts:17-60 | the store's notifications change exactly in that way |
| Notifications.CountUnreadAfterInsert | backend/src/services/notificationService.ts:67-79 | a new notification raises the unread count of its own company by one when it is unread, and leaves every other count alone |
| Store.ParseOrdemStatus | backend/dist/controllers/ordemController.js:389-394 | a parsed status's name is the input |
| Store.ParseOrdemStatusName | backend/dist/controllers/ordemController.js:389-394 | every status name parses back to its status |
| Store.ValidAfterOrdemWrite | backend/src/controllers/ordemController.ts:550-571 | writing an order whose references exist keeps the store valid |
| Store.ValidAfterPagamentoWrite | backend/src/controllers/pagamentoController.ts:50-61 | writing a payment of an existing order keeps the store valid |
| Store.ValidAfterPagamentoRemove | backend/src/controllers/pagamentoController.ts:215-217 | removing a payment keeps the store valid |
| Washers.CreateLavador | backend/dist/controllers/lavadorController.js:9-46 | 400 without a name or with the rate missing, 400 for a rate outside 0 to 100, 500 for a `null` rate, which passes both tests and reaches the insert; otherwise exactly one new active washer at a fresh key |
| Washers.PatchLavadorProperties | backend/dist/controllers/lavadorController.js:208-214 | the patch keeps the company, an empty patch changes nothing, a second application changes nothing more, and an empty name is ignored |
| Washers.PatchKeepsCommissionInRange | backend/dist/controllers/lavadorController.js:208-214 | an accepted patch keeps the rate between 0 and 100 |
| Washers.UpdateLavador | backend/dist/controllers/lavadorController.js:188-232 | 404 outside the tenant, 400 for a given rate outside 0 to 100, 500 when the rate or the flag is `null` and so spread into the update; otherwise exactly the patched washer is written |
| Washers.DeleteLavador | backend/dist/controllers/lavadorController.js:254-266 | 404 outside the tenant, 400 while a washer has orders; otherwise it is removed |
| Washers.ToggleLavadorStatus | backend/dist/controllers/lavadorController.js:288-296 | 404 outside the tenant; otherwise only `ativo` flips and the new value is returned |
| Washers.ToggleTwice | backend/dist/controllers/lavadorController.js:279-313 | after one successful toggle, as the method's postcondition states it, the washer is still in the tenant, and a second toggle restores the table and reports the original flag |
| Washers.CommissionSumIsRateOfTotal | backend/dist/controllers/lavadorController.js:167-169 | the sum of per-order commissions is the rate applied to the sum of the totals |
| Washers.DistinctKeysCount | backend/dist/controllers/lavadorController.js:166 | a list of distinct order keys has as many entries as the set of keys it lists, so the count of the history is the count of the orders |
| Washers.Stats | backend/dist/controllers/lavadorController.js:166-175 | the statistics count every order of the sequence they are given; `Washers.GetLavadorById` gives them exactly the washer's orders in the store |
| Washers.StatsMeaning | backend/dist/controllers/lavadorController.js:166-175 | the corrected commission total is the rate on everything handled, and the average times the count gives it back |
| Washers.GetLavadorById | backend/dist/controllers/lavadorController.js:127-183 | 404 exactly outside the tenant; otherwise exactly the intended statistics `Washers.Stats` (see Findings) over the washer's orders in the store, each once: the count is the number of orders that have the washer assigned, the total commission is the rate on their total value, where the source sums only the ten latest, and the average is total over count, or 0 without orders |
| Washers.StatsAgreeUpToTen | backend/dist/controllers/lavadorController.js:150-175 | with ten orders or fewer, the as-written statistics equal the corrected ones |
| Washers.StatsAsWrittenUndercounts | backend/dist/controllers/lavadorController.js:150-175 | eleven orders of 100.00 at 10% report 100 and 100/11 as written, and 110 and 10 when corrected |
| Washers.ValorSumOfCopies | backend/dist/controllers/lavadorController.js:167-169 | n orders of 100.00 add up to 100 n |
| Washers.ValidAfterLavadorWrite | backend/dist/controllers/lavadorController.js:23-31 | writing a washer keeps the store valid |
| Washers.ValidAfterLavadorRemove | backend/dist/controllers/lavadorController.js:263-265 | removing a washer without orders keeps the store valid |
| Services.CreateServico | backend/src/controllers/servicoController.ts:15-53 | 400 without a name, price or vehicle type, and for an unknown type; otherwise one new service of the tenant |
| Services.CreateAdicional | backend/src/controllers/servicoController.ts:58-85 | 400 without a name or price; otherwise one new add-on |
| Services.PatchServicoProperties | backend/src/controllers/servicoController.ts:369-381 | the patch keeps the company, an empty patch is the identity, and patching twice is the same as once |
| Services.UpdateServico | backend/src/controllers/servicoController.ts:364-397 | 500 for a `null` flag, which makes the scoped `updateMany` throw before it matches a row; otherwise 404 exactly outside the tenant, and success exactly inside it, with exactly the patched service written; errors change nothing |
| Services.PatchAdicionalProperties | backend/src/controllers/servicoController.ts:407-417 | the patch keeps the company and the price rows, an empty patch is the identity, and patching twice is the same as once |
| Services.UpdateAdicional | backend/src/controllers/servicoController.ts:402-434 | the same rule for add-ons: 500 for a `null` flag, then 404 outside the tenant, else exactly the patched add-on |
| Services.DeleteServico | backend/src/controllers/servicoController.ts:439-480 | 404 outside the tenant, 400 while order items use the service; otherwise it is removed |
| Services.DeleteAdicional | backend/src/controllers/servicoController.ts:485-524 | 404 outside the tenant, 400 while order items use the add-on; otherwise it is removed |
| Services.ValidAfterServicoWrite | backend/src/controllers/servicoController.ts:34-43 | writing a service whose type exists keeps the store valid |
| Services.ValidAfterServicoRemove | backend/src/controllers/servicoController.ts:469-471 | removing a service that no order item uses keeps the store valid |
| Services.ValidAfterAdicionalWrite | backend/src/controllers/servicoController.ts:68-75 | writing an add-on keeps the store valid |
| Services.ValidAfterAdicionalRemove | backend/src/controllers/servicoController.ts:515-517 | removing an add-on that no order item uses keeps the store valid |
| LegacyServices.UpdatedServicoRows | backend/dist/controllers/servicoController.js:418-428 | the update's rows follow that rule; company, flat price and type never change; the update is idempotent |
| LegacyServices.CreateServicoComPrecos | backend/dist/controllers/servicoController.js:9-62 | 400 without a name or a non-empty price list; 500 when a row names an unknown category; success exactly otherwise, with one new active service holding exactly the given rows; errors change nothing |
| LegacyServices.CreateAdicionalComPrecos | backend/dist/controllers/servicoController.js:66-118 | the same rule for add-ons |
| LegacyServices.UpdateServicoComPrecos | backend/dist/controllers/servicoController.js:392-447 | 404 outside the tenant; 500 when the basic update writes a `null` flag or a new row names an unknown category; success exactly otherwise, and then exactly the updated service is written |
| LegacyServices.UpdateAdicionalComPrecos | backend/dist/controllers/servicoController.js:451-505 | the same rule for add-ons |
| Customers.DuplicateContact | backend/dist/controllers/clienteController.js:18-31 | a duplicate is another customer of the company with the same non-empty email or phone |
| Customers.CreateCliente | backend/dist/controllers/clienteController.js:9-31 | 400 without a name or for a duplicate contact; otherwise one new active customer |
| Customers.CreateKeepsContactsUnique | backend/dist/controllers/clienteController.js:18-31 | a created customer keeps emails and phones unique within the company |
| Customers.UpdateCliente | backend/dist/controllers/clienteController.js:208-251 | 404 outside the tenant, 400 when another customer has the email or phone sent, 500 when the update writes a `null` flag; success exactly otherwise, with exactly the patched customer written |
| Customers.OwnContactIsNoDuplicate | backend/dist/controllers/clienteController.js:223-243 | resending a customer's own email and phone is never a duplicate |
| Customers.UpdateKeepsContactsUnique | backend/dist/controllers/clienteController.js:223-243 | an accepted update keeps emails and phones unique within the company |
| Customers.DeleteCliente | backend/dist/controllers/clienteController.js:276-302 | 404 outside the tenant, 400 while the customer has orders or vehicles; otherwise it is removed |
| Customers.ValidAfterClienteWrite | backend/dist/controllers/clienteController.js:32-40 | writing a customer keeps the store valid |
| Customers.ValidAfterClienteRemove | backend/dist/controllers/clienteController.js:303-305 | removing a customer without orders or vehicles keeps the store valid |
| Companies.DefaultPreferencesGate | backend/src/controllers/empresaController.ts:43-48 | a new company is notified of created and edited orders but not of deleted ones |
| Companies.StandardTiposShape | backend/src/controllers/empresaController.ts:62-72 | the seeding has three main types (CARRO, MOTO, OUTROS) and four CARRO subtypes with distinct categories, all active and of the company |
| Companies.CreateEmpresa | backend/src/controllers/empresaController.ts:12-76 | 400 without a name, 401 without a user, 400 when the user already has a company of that name; otherwise one new company with the default configuration and preferences, and seven fresh distinct vehicle types holding the standard list; when every existing type names an existing company, each seeded category's subtype lookup in the new company is exactly its seeded type |
| Companies.SeededSubtipos | backend/src/controllers/empresaController.ts:62-76 | in a new company that no existing type names, the subtype lookup for each seeded category finds exactly its seeded type |
| Companies.PatchEmpresaProperties | backend/src/controllers/empresaController.ts:189-198 | the patch keeps owner and status, ignores empty text and null JSON, writes an explicit false, and is idempotent |
| Companies.UpdateEmpresa | backend/src/controllers/empresaController.ts:172-202 | 404 exactly for an unknown company, 500 when either finalization flag is `null`; success exactly otherwise, with exactly the patched company written |
| Companies.ToggleEmpresaStatus | backend/src/controllers/empresaController.ts:231-244 | 404 for an unknown company; otherwise only `ativo` flips and the new value is returned |
| VehicleTypes.CreateTipoVeiculo | backend/src/controllers/tipoVeiculoController.ts:16-34 | 400 without a name, 500 for a `null` flag passed to the insert; success exactly otherwise, with one new type at a fresh key, active unless the request says otherwise |
| VehicleTypes.PatchTipoProperties | backend/src/controllers/tipoVeiculoController.ts:131-143 | the patch keeps the company, an empty patch is the identity, and patching twice is the same as once |
| VehicleTypes.UpdateTipoVeiculo | backend/src/controllers/tipoVeiculoController.ts:122-143 | 404 exactly for an unknown id, 500 when the update writes a `null` flag; success exactly otherwise, with exactly the patched type written |
| VehicleTypes.DeleteTipoVeiculo | backend/src/controllers/tipoVeiculoController.ts:158-177 | 400 while a service uses the type, 500 for an unknown id; otherwise it is removed |
| VehicleTypes.SubtiposAfterInsert | backend/src/controllers/tipoVeiculoController.ts:189-198 | a new type joins only its own category's lookup |
| VehicleTypes.ValidAfterTiposGrow | backend/src/controllers/tipoVeiculoController.ts:26-33 | a type table that keeps every key keeps the store valid |
| VehicleTypes.ValidAfterTipoWrite | backend/src/controllers/tipoVeiculoController.ts:26-33 | writing a type keeps the store valid |
| VehicleTypes.ValidAfterTipoRemove | backend/src/controllers/tipoVeiculoController.ts:163-177 | removing a type no service uses keeps the store valid |
| Categories.UpsertCategoria | backend/dist/controllers/categoriaController.js:30-37 | an existing (name, company) pair is returned unchanged; otherwise one new category is added at a fresh key; names stay unique |
| Categories.UpsertStep | backend/dist/controllers/categoriaController.js:30-37 | one more upsert extends the loop invariant |
| Categories.UpsertAll | backend/dist/controllers/categoriaController.js:30-37 | after the loop every name is present, old categories are kept, new ones are the company's missing names, and a company that had them all is unchanged |
| Categories.NomeLeTotal | backend/dist/controllers/categoriaController.js:22-25 | the name order is total |
| Categories.InsertByNome | backend/dist/controllers/categoriaController.js:22-25 | inserting into the ordered list adds one entry |
| Categories.InsertByNomeElements | backend/dist/controllers/categoriaController.js:22-25 | the entries after insertion are the old ones plus the new one |
| Categories.InsertByNomePermutes | backend/dist/controllers/categoriaController.js:22-25 | insertion is a permutation of the old entries plus the new one |
| Categories.InsertByNomeSorted | backend/dist/controllers/categoriaController.js:22-25 | insertion keeps the list ordered by name |
| Categories.InsertByNomeDistinct | backend/dist/controllers/categoriaController.js:22-25 | inserting a new id keeps the ids distinct |
| Categories.ListCategorias | backend/dist/controllers/categoriaController.js:39-42 | the listing holds each of the company's categories exactly once, with its record, ordered by name |
| Categories.GetCategorias | backend/dist/controllers/categoriaController.js:19-50 | a company with categories is listed unchanged; one without gets the seven defaults first; the listing is ordered and complete |
| Common.InsertAll | backend/src/controllers/empresaController.ts:74-76 | every record is stored at its own fresh key, the keys are distinct, the old entries are kept and no other key appears |
| Common.DigitsValueOfNatToString | backend/src/controllers/ordemController.ts:213 | a number written in decimal reads back as the number |
| Common.JoinSplit | backend/src/controllers/ordemController.ts:279 | joining the parts of a split gives the string back |
| Common.SplitJoin | backend/src/controllers/ordemController.ts:279 | splitting names that contain no separator, joined by it, gives the names back |

## Left out

- Express, routing, authentication, JWT and bcrypt are plumbing around the handlers and are not modelled. The company and the user are parameters.
- Transactions and concurrency: each handler runs atomically. Two handlers never interleave, and neither do two sweeps.
- The ORM's generated ids are not modelled. `Common.FreshKey` picks a natural above every key in use instead.
- Time: the clock and the timestamps are parameters. The sweep computes a start of day (`inicioDoDia`) that the source never uses, so it is not modelled.
- Floating point: money and rates are exact reals. `parseFloat` of a price is taken as the number sent.
- JavaScript's `Number()` is modelled for the empty string (0) and for decimal digits with an optional leading minus. Fractions, a plus sign, surrounding whitespace and hexadecimal read as no number, so `Number(x) || default` gives the default for them.
- A status name outside the enum, alone (`status=FOO`) or in a comma list, makes the ORM throw in the source. `OrderQueries.StatusWhere` answers 500 for it; `OrderQueries.StatusMatches` compares names and is meant only for the filters it accepts.
- LegacyOrders.LegacyItem: a `null` quantity is rejected with 400, because `null <= 0` holds in JavaScript. A missing quantity passes that check, and the model takes the insert to refuse the line without a quantity, a 500.
- Washers.CreateLavador: a `null` commission passes both of the source's tests. The model takes the insert to refuse it (a 500), because the commission is a required number in this model's washer record; the schema that decides this is not part of the model.
- Washers.UpdateLavador: a `null` commission or `null` flag is spread into the update. The model takes the write to refuse it (a 500), for the same reason.
- Services.UpdateServico: a `null` flag is spread into the `updateMany`. The model takes the query to refuse it before it matches any row (a 500), because `ativo` is a required column in this model. A `null` price goes through `parseFloat` to NaN, which the exact reals of this model cannot hold, so it is not modelled.
- Services.UpdateAdicional: the same for add-ons, `null` flag and `null` price alike.
- LegacyServices.UpdateServicoComPrecos: a `null` flag is spread into the basic update. The model takes that update to refuse it (a 500) and the transaction to roll back.
- LegacyServices.UpdateAdicionalComPrecos: the same for add-ons.
- Customers.UpdateCliente: a `null` flag is spread into the update. The model takes the write to refuse it (a 500).
- Companies.UpdateEmpresa: a `null` `finalizacaoAutomatica` or `exigirLavadorParaFinalizar` is copied into the update. The model takes the write to refuse it (a 500).
- VehicleTypes.CreateTipoVeiculo: `ativo` is passed to the insert as sent. The model takes a `null` one to be refused (a 500) and a missing one to take the default, active.
- VehicleTypes.UpdateTipoVeiculo: a `null` flag is spread into the update. The model takes the write to refuse it (a 500).
- Orders.UpdateOrdem: an `itens` field that is present but not an array is not modelled. In the source it skips the repricing, because of the `Array.isArray` test, but still triggers the commission recompute, because it is truthy. In the model the field is either absent or a list.
- The Prisma schema is not part of this model, so the column defaults are assumed:
  - new customers, washers, services, types and categories are active;
  - a new order is unpaid and has no finish time; one from the compiled createOrdem also has commission 0 and no number, since that variant sets neither, while the newer variant sets both;
  - the other defaults of a new company are the `Companies.ColumnDefaults` parameter.
- The compiled servicoController has no flat price or vehicle type. A service it creates stores them as 0 and none.
- The washer's order history that getLavadorById reads is a parameter, newest first. The query that produces it is not modelled.
- Recomputing `pago` when updateOrdem changes an order's total is not modelled, because the source does not do it either.
- `numeroOrdem` can be null on old rows. The numbering ignores such rows, so the database's placement of nulls in a descending sort is not modelled.
- getOrdens: only the status filter and the pagination are modelled. The search, date, method, customer and washer filters and the listing itself are not.
- getOrdensStats, getPaymentStats and getPagamentosByOrdem are read-only and are not modelled.
- The other read-only endpoints are not modelled either: getEmpresas, getEmpresaById, getClientes, getClienteById, getClienteByPlaca, getLavadores, getLavadoresSimple, getOrdemById, getServicos, getServicoById, getAdicionais, getAdicionalById and their simple variants, getTiposVeiculo, getTipoVeiculoById and countUnreadNotifications as a query. The unread count itself is `Notifications.UnreadOf`.
- Categories.ListCategorias: it orders names by character code, not by the database's collation, and returns ids with their records rather than ORM objects.
- Notifications.CreateNotification: an error that the service catches and logs is modelled as "no record stored".
- Orders.UpdatedOrdem: it stores the intended commission of `Orders.UpdatedCommission`. Lines 521-531 of ordemController.ts as written reset the commission to 0 when the request omits `lavadorId` or sends `null`. `Orders.UpdatedCommissionAsWritten` models that rule, and the Findings table records the difference.
- Orders.PlanUpdateOrdem: its result carries the same intended commission.
- Orders.UpdateOrdem: it writes the same intended commission. `Orders.UpdatedCommissionAgreesWithWasherGiven` shows that the two rules agree whenever the request names a washer.
- Washers.GetLavadorById: it returns the intended statistics of `Washers.Stats`. The source sums the commission over only the ten latest orders (`take: 10`) while counting all of them. `Washers.StatsAsWritten` models that, and `Washers.StatsAgreeUpToTen` shows that the two agree for up to ten orders.
- Sweep.ProcessarFinalizacoesAutomaticas: the writes of all companies are committed together. A run that fails halfway, leaving some companies swept, is not modelled.

## Findings

| source | as written | input that shows it | evidently intended | confidence | as-written member | corrected member |
|---|---|---|---|---|---|---|
| backend/src/controllers/ordemController.ts:521-531 | the commission is recomputed from the request's `lavadorId` alone, and an absent field reads as "no washer" | an order of 80.00 with a 25% washer, updated with only new notes | recompute from the washer the order keeps (the given one, else the current one) | not executed | Orders.UpdatedCommissionAsWrittenDropsCommission | Orders.UpdatedCommissionConsistent |
| backend/dist/controllers/lavadorController.js:150-175 | the total commission sums only the ten orders fetched with `take: 10`, while the count and the average use all orders | eleven orders of 100.00 at 10% report 100 and 100/11 | total and average over the same orders: 110 and 10 | not executed | Washers.StatsAsWrittenUndercounts | Washers.StatsMeaning |
