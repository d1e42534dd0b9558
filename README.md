# Invoice service: a Dafny model

This project models the business logic of the invoice service of the
Invoice-Mail system (`invoice-service/src/invoice/invoice.service.ts`):

- **Creation without duplicates.** `create` looks the reference up. A taken
  reference is refused with `400 Reference code already exists`. Otherwise
  the invoice is saved and an `invoices.created` event is published.
- **Lookup by id.** `findById` returns the stored invoice or
  `404 Invoice not found`.
- **Range queries.** `findAll` turns the query string into a conjunctive store
  filter with inclusive bounds on `date` and `amount`.
- **The daily summary.** `calculateSalesSummary` selects the invoices dated
  within today, adds up their amounts into `totalAmount`, and tallies
  `itemSales` by sku.
- **The scheduled job.** `handleCron` publishes the summary under routing key
  `routing.key`. It catches and logs a failed summary and a publish that
  throws at the call. It does not await the publish, so a publish whose
  promise rejects later escapes its `catch`.

## How the system is represented

- The document store is the sequence `InvoiceService.store`. It holds
  invoices in insertion order. The identifier the store assigns is
  `nextId`, a counter.
- The message bus is the log `InvoiceService.published`. Each entry is an
  exchange, a routing key and a payload.
- The exchange name comes from the configuration once and is the constant
  `exchangeName`.
- Failures of the store or the bus are call parameters. `Fault` says which
  step of `create` fails. A boolean `storeFails` covers the reads, and a
  boolean `publishFails` covers the job's publish. An error is a
  `Result.Err` carrying the HTTP status kind and the message the code uses.
- Dates are milliseconds. Amounts and quantities are integers.
- Each query-string parameter is `Absent`, `Empty` or `Given(value)`. A
  parameter imposes a bound exactly when it is truthy in JavaScript, which
  for a query-string value means non-empty, so `"0"` counts as a bound.
- "Today" is the parameter `dayStart`. The window is
  `[dayStart, dayStart + 86_399_999]`.

Modules: `Invoices` (`invoices.dfy`) holds the entity, the error kinds and
the store's `findOne`. `Filters` (`filters.dfy`) holds the query, the filter
and the store's `find`. `SalesSummary` (`sales_summary.dfy`) holds the
aggregation specification and its lemmas. `Service` (`service.dfy`) holds the
class `InvoiceService` and its methods. `Scenarios` (`scenarios.dfy`) holds
client methods that derive, from the contracts alone, the outcomes the
service's tests expect:
- a duplicate create is refused and leaves one record
  (`invoice-service/test/invoices/invoices.controller.spec.ts:69-94`);
- a created invoice is found again by its id;
- the job publishes the day's summary on the configured exchange under
  `routing.key` (`invoice-service/test/invoices/invoices.service.spec.ts:200-220`),
  and that summary covers only the invoices dated within that day.

Where the design description of the system and the code differ, the model
follows the code:
- The summary is published under routing key `routing.key`, not
  `sales.summary`.
- A publish that throws at the call inside `create` is caught. The caller
  gets `500 Failed to create invoice` although the invoice is already saved.
  The design calls for this failure to stay hidden from the caller.
- Nothing stops two runs of the job from overlapping. The design asks for
  such a guard, and the code has none.

## Model

| member | source | states |
|---|---|---|
| `Invoices.FindOne` | invoice-service/src/invoice/invoice.service.ts:28-30 | the store's `findOne` finds a document exactly when one satisfies the predicate, and it returns the first such document in store order |
| `Invoices.FindByReference` | invoice-service/src/invoice/invoice.service.ts:28-31 | the lookup by reference finds something exactly when the reference is already taken |
| `Invoices.InsertKeepsUnique` | invoice-service/src/invoice/invoice.service.ts:28-39 | saving an invoice only after its reference was found free keeps every reference unique |
| `Invoices.InsertKeepsIds` | invoice-service/src/invoice/invoice.service.ts:38-39 | saving under the next identifier keeps identifiers distinct, increasing and below the next one |
| `Filters.Find` | invoice-service/src/invoice/invoice.service.ts:105 | the store's `find` returns no more documents than the store holds, and each one satisfies the filter |
| `Filters.FindSelects` | invoice-service/src/invoice/invoice.service.ts:105 | `find` is sound and complete: each matching document appears as often as it is stored, and nothing else appears |
| `Filters.FindDistributes` | invoice-service/src/invoice/invoice.service.ts:105 | `find` keeps store order: filtering a concatenation is concatenating the filtered parts |
| `Filters.QueryFilter` | invoice-service/src/invoice/invoice.service.ts:81-103 | the filter selects an invoice exactly when every truthy parameter's inclusive bound holds; a field is filtered exactly when one of its two parameters is truthy |
| `Filters.BuildFilter` | invoice-service/src/invoice/invoice.service.ts:81-103 | the field-by-field construction yields that filter and so selects exactly the invoices meeting every present bound |
| `Filters.EmptyQueryReturnsStore` | invoice-service/src/invoice/invoice.service.ts:84-105 | with no truthy parameter, absent or empty, the query returns the whole store in store order |
| `SalesSummary.DayFilter` | invoice-service/src/invoice/invoice.service.ts:131-140 | the summary's query selects exactly the invoices dated from the first to the last millisecond of the day, both inclusive |
| `SalesSummary.TallyMeaning` | invoice-service/src/invoice/invoice.service.ts:147-152 | after the item loop, `itemSales` has a key exactly for the skus visited, and each key holds the sum of their `qt` |
| `SalesSummary.ItemSales` | invoice-service/src/invoice/invoice.service.ts:143-153 | a sku is a key of `itemSales` if and only if some item of some invoice carries it, and its value is the total quantity over all invoices |
| `SalesSummary.SumOverPermutation` | invoice-service/src/invoice/invoice.service.ts:145-146 | a sum over the invoices does not depend on their order |
| `SalesSummary.SummarizePermutation` | invoice-service/src/invoice/invoice.service.ts:142-158 | the whole summary is the same for any reordering of the invoices the store returns |
| `SalesSummary.DaySummary` | invoice-service/src/invoice/invoice.service.ts:131-158 | over the whole store, `totalAmount` sums the amounts of the invoices dated within the day; `itemSales` has a key exactly for the skus such an invoice carries, holding their total quantity |
| `SalesSummary.EmptyDay` | invoice-service/src/invoice/invoice.service.ts:142-143 | with no invoice that day the summary is a zero total and an empty dictionary |
| `SalesSummary.TwoInvoicesExample` | invoice-service/src/invoice/invoice.service.ts:142-158 | amounts 100 and 50 with items A:2 and A:1, B:3 give a total of 150 with A:3 and B:3 |
| `SalesSummary.TallyAsWritten` | invoice-service/src/invoice/invoice.service.ts:143-152 | the dictionary the code builds never has a key named like a property inherited from `Object.prototype` |
| `SalesSummary.InheritedSkuIsDropped` | invoice-service/src/invoice/invoice.service.ts:148-151 | an item with sku `constructor` is missing from the code's dictionary but present in the intended one |
| `SalesSummary.AsWrittenAgreesElsewhere` | invoice-service/src/invoice/invoice.service.ts:147-152 | when no sku is an inherited name, the code's dictionary equals the intended one |
| `SalesSummary.AsWrittenSummary` | invoice-service/src/invoice/invoice.service.ts:142-158 | when no invoice sells a sku named like an inherited property, the `itemSales` the code builds equals the summary's, so the published payload is the code's |
| `Service.InvoiceService.constructor` | invoice-service/src/invoice/invoice.service.ts:16-24 | the service starts with the configured exchange name, an empty collection and nothing published |
| `Service.InvoiceService.Create` | invoice-service/src/invoice/invoice.service.ts:26-58 | a lookup failure gives `InternalError`. A taken reference gives `BadRequest "Reference code already exists"` with store and event log unchanged. A failed save gives `InternalError`, nothing changed. Otherwise exactly one invoice equal to the input, under a fresh id, is appended. On success exactly one `invoices.created` event carrying it goes to the configured exchange, and it is returned; `findById` then finds it. A publish that throws leaves the invoice saved but reports `InternalError`. A dropped publish still returns the invoice. Reference uniqueness is preserved on every path |
| `Service.InvoiceService.FindById` | invoice-service/src/invoice/invoice.service.ts:60-77 | returns a stored invoice with that id exactly when one exists, otherwise `NotFound "Invoice not found"`; a store failure gives `InternalError`; it reads the store and changes nothing |
| `Service.InvoiceService.FindAll` | invoice-service/src/invoice/invoice.service.ts:79-113 | returns exactly the stored invoices meeting every present inclusive bound, each as often as stored, in store order; a store failure gives `InternalError "Failed to find invoices"` |
| `Service.InvoiceService.CalculateSalesSummary` | invoice-service/src/invoice/invoice.service.ts:129-166 | the loop computes the summary of the invoices the day's query returns; a store failure gives `InternalError "Failed to calculate sales summary"` |
| `Service.AddInvoice` | invoice-service/src/invoice/invoice.service.ts:145-153 | one pass of the outer loop adds the invoice's amount to the total and its items to the corrected tally (see Findings) |
| `Service.InvoiceService.HandleCron` | invoice-service/src/invoice/invoice.service.ts:115-127 | on success exactly one event is appended, on the configured exchange, with routing key `routing.key` and the day's summary (corrected tally, see Findings) as payload. When the summary or the publish fails nothing is published and the job returns normally. The store never changes |
| `Service.NewIdIsFound` | invoice-service/src/invoice/invoice.service.ts:38-39 | an invoice saved under an identifier above all others is the one the lookup by id finds |

## Findings

| source | as written | input that shows it | evidently intended | confidence | as-written member | corrected member |
|---|---|---|---|---|---|---|
| invoice-service/src/invoice/invoice.service.ts:143-151 | `itemSales` starts as `{}`. A sku gets its `{qt: 0}` entry only when `!itemSales[item.sku]`. For a name inherited from `Object.prototype` that lookup is truthy, so the entry is never made. The `qt` update lands on the inherited value instead. | an invoice dated today with the item `{sku: "constructor", qt: 2}`: the published `itemSales` has no `constructor` key | every sku sold that day appears with its total quantity | high (JavaScript property lookup); not executed | `SalesSummary.InheritedSkuIsDropped` (with `SalesSummary.TallyAsWritten`) | `SalesSummary.ItemSales` (with `SalesSummary.TallyMeaning`) |

The rest of the model, `Service.InvoiceService.CalculateSalesSummary`
included, uses the corrected tally.

## Left out

- HTTP routing, the request-logging middleware, bootstrap and dependency
  injection (`invoice-service/src/main.ts`, `invoice.controller.ts`,
  `invoice.module.ts`) are framework plumbing.
- DTO validation (`dto/create-invoice.dto.ts`, `dto/filter-invoices.dto.ts`)
  is done by a foreign library. Inputs arrive already typed and parsed. The
  parsing of date and number strings is not modelled.
- The email consumer (`email-service/`) is out of scope. It is a bus
  subscription and string templating.
- The document store is reduced to a sequence. Its `find` returns documents
  in insertion order, while a real store's natural order carries no such
  promise. Any store failure is the `storeFails` flag. A malformed id, which
  the store rejects with a cast error, is one such failure. A save that fails
  is assumed to store nothing.
- The service starts from an empty collection. The real collection persists
  across restarts.
- The bus transport, delivery and acknowledgement are left out. The log holds
  what was handed to the bus. A publish that rejects later, in the promise
  nobody awaits, is the `PublishDropped` fault.
- Cron scheduling is left out. `HandleCron` is one run.
- Concurrency is left out: the check-then-insert race between two creates
  with the same reference, and overlapping runs of the job.
- The wall clock and the time zone are left out. The day is the parameter
  `dayStart` and has 24 hours, so the 23- and 25-hour days of a
  daylight-saving change are not modelled.
- `amount`, `qt` and `totalAmount` are JavaScript floating-point numbers in
  the code. Here they are unbounded integers, with no rounding.
- `itemSales[sku]` is `{qt: n}` in the code and the number `n` here.
- Logging (`this.logger.error`) is left out.
- `Service.AddInvoice`: its item step tests whether the sku is a key of
  `itemSales`, where the code tests the truthiness of the lookup, so it keys
  the skus named like inherited properties that the code drops (see
  Findings); `SalesSummary.AsWrittenSummary` states when the two agree.
- `Service.InvoiceService.HandleCron`: publishes the summary with the
  corrected tally, which keys the skus named like inherited properties that
  the code's payload lacks (see Findings).
- `Service.InvoiceService.HandleCron`: `publishFails` stands for both a
  publish that throws at the call, which the code catches and logs, and a
  publish whose promise rejects later. The code does not await the latter, so
  its rejection escapes the `catch` unlogged as an unhandled rejection. The
  model does not represent that escape, only that nothing is published.
- `Service.InvoiceService.CalculateSalesSummary`: models the corrected tally,
  not the code's dropping of skus named like inherited properties (see
  Findings). It also leaves out the code's side effect on those inherited
  values, such as the write to `Object.prototype` for sku `__proto__`.
