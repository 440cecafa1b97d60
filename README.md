# Invoice lifecycle engine, modelled in Dafny

This project models the core of an invoice manager. The manager creates
invoices, records payments against them and runs a batch sweep over overdue
invoices. The sweep closes each overdue invoice and rolls its unpaid balance,
plus a late fee, into a new successor invoice.

Two pieces are modelled, and the model keeps their imperative form:

- The in-memory store `InvoiceRepository` is a class. Its `invoices` map field
  is updated in place by `Save`. `FindById` looks up one record and `FindAll`
  enumerates a snapshot (`repository.dfy`).
- The engine `InvoiceServiceImpl` is the class `InvoiceService` in
  `service.dfy`. Its methods are `CreateInvoice`, `GetAllInvoices`,
  `AddPayment` and `ProcessOverdue`. `ProcessOverdue` is a loop over the
  snapshot.

Each state-changing method of the engine is proved against a function of its
abstract state in `lifecycle.dfy`. `GetAllInvoices` is proved against the
snapshot predicate `IsSnapshot` in `invoices.dfy`. That state is a `Ledger`: the store's map together with
the id supplier's counter. The correspondence is:

| method | function |
|---|---|
| `CreateInvoice` | `Create` |
| `AddPayment` | `Pay` |
| `ProcessOverdue` | `Sweep` |

`Sweep` is the left fold of `Visit` over the snapshot. The lemmas in
`lifecycle.dfy` state what these functions promise. They cover:

- the frame conditions;
- the rollover amounts;
- the size of the store after a sweep;
- independence from the snapshot's order for existing records;
- records closed by a sweep being left alone by any later sweep, and, with a
  non-negative grace period, a second sweep on the same day changing nothing;
- the figures used by the unit tests.

The record and the error categories are defined in `invoices.dfy`. The fresh-id
supplier that stands in for random UUIDs is defined in `ids.dfy`.

Abstractions:

- Amounts are integers in the smallest currency unit, not `double`s.
- Dates are integer day numbers. `plusDays(n)` is `+ n` and `isBefore` is `<`.
- `LocalDate.now()` becomes the `today` parameter of `ProcessOverdue`.
- `UUID.randomUUID()` becomes a counter `nextId` in the engine. The n-th id is
  `IdOf(n)`, the decimal spelling of n. `IdOf` is proved injective, and the
  engine's invariant `WellFormed` says that no stored key is an id the
  supplier has yet to hand out. Together these give freshness of every
  created id.
- `ModelMapper` is the identity: the response DTO has the record's fields, so
  operations return `Invoice` values.
- The engine's constructor starts from an empty store.

Two consequences of the code are worth stating, since the model keeps them:

- Void is not terminal. `addPayment` does not check the status
  (src/main/java/com/invoicemanagement/service/InvoiceServiceImpl.java:59-63),
  so a `void` invoice paid up to its amount becomes `paid`. `ApplyPayment`'s
  contract states exactly this, and `PaymentExamples` shows it. Paid is
  terminal: `addPayment` only ever sets `paid`, and the sweep only touches
  pending invoices (`ClosedStaysClosed`).
- Amounts are not always positive. Creation requests are validated
  `@Positive` (src/main/java/com/invoicemanagement/dto/CreateInvoiceRequestDto.java:19),
  but `processOverdue` calls `createInvoice` internally with
  `remaining + lateFee`, which bypasses that validation, and `lateFee` is
  unchecked. So `CreateInvoice` has no precondition on the amount, and a
  successor's amount may be zero or negative.

## Model

| member | source | states |
|---|---|---|
| Invoices.Wrap | src/main/java/com/invoicemanagement/service/InvoiceServiceImpl.java:66-69 | a fault becomes NotFound exactly when it is a missing invoice raised in addPayment, carrying its id; every other fault becomes a processing error of the operation it arose in |
| Invoices.SnapshotMembers | src/main/java/com/invoicemanagement/repository/InvoiceRepository.java:21-23 | a snapshot contains every stored record, and each of its entries is the record stored under that entry's id |
| Ids.IdOf | src/main/java/com/invoicemanagement/service/InvoiceServiceImpl.java:33 | the id handed out for counter value n: the decimal spelling of n, non-empty and ending in n's last digit |
| Ids.IdOfInjective | src/main/java/com/invoicemanagement/service/InvoiceServiceImpl.java:33 | distinct counter values give distinct ids, so the supplier never hands out an id twice |
| Ids.IssuedBetweenSize | src/main/java/com/invoicemanagement/service/InvoiceServiceImpl.java:33 | advancing the supplier from lo to hi hands out exactly hi - lo distinct ids |
| Repository.InvoiceRepository.constructor | src/main/java/com/invoicemanagement/repository/InvoiceRepository.java:14 | a new store is empty and keeps records under their ids |
| Repository.InvoiceRepository.Save | src/main/java/com/invoicemanagement/repository/InvoiceRepository.java:16-19 | save upserts the record under its id and returns it; every other id keeps its record |
| Repository.InvoiceRepository.FindAll | src/main/java/com/invoicemanagement/repository/InvoiceRepository.java:21-23 | the returned list holds every stored record exactly once (same length as the map, distinct ids, each entry the stored record) and the store is not modified |
| Repository.InvoiceRepository.FindById | src/main/java/com/invoicemanagement/repository/InvoiceRepository.java:25-27 | present exactly when the id is stored, and then the stored record; the store is not modified |
| Repository.SaveTwoThenFind | src/test/java/com/invoicemanagement/repository/InvoiceRepositoryTest.java:61-71 | after two saves under distinct ids into a new store, findAll has size 2 and holds both records, and an unsaved id is not found |
| Lifecycle.NewInvoice | src/main/java/com/invoicemanagement/service/InvoiceServiceImpl.java:34 | defines the record createInvoice builds: the supplier's next id, the requested amount and due date, nothing paid, pending |
| Lifecycle.Create | src/main/java/com/invoicemanagement/service/InvoiceServiceImpl.java:33-35 | defines createInvoice's effect on the state: the new record is stored under the supplier's next id and the supplier advances (properties in CreateAddsOne) |
| Lifecycle.CreateAddsOne | src/main/java/com/invoicemanagement/service/InvoiceServiceImpl.java:33-35 | createInvoice adds exactly one record under an id not in use, with the requested amount and due date, nothing paid and pending; existing records are unchanged and the state stays well formed |
| Lifecycle.ApplyPayment | src/main/java/com/invoicemanagement/service/InvoiceServiceImpl.java:60-63 | the paid amount grows by the payment; id, amount and due date are unchanged; the status is paid exactly when the new paid amount reaches the amount or it already was paid, and is otherwise the prior status |
| Lifecycle.Pay | src/main/java/com/invoicemanagement/service/InvoiceServiceImpl.java:59-64 | NotFound exactly when the id is not stored; otherwise the record under the id has the payment applied and every other record and the key set are unchanged |
| Lifecycle.PayKeepsWellFormed | src/main/java/com/invoicemanagement/service/InvoiceServiceImpl.java:60-64 | a positive payment keeps records under their ids, the paid amounts non-negative and the future ids unused |
| Lifecycle.InstalmentsAddUp | src/main/java/com/invoicemanagement/service/InvoiceServiceImpl.java:60-63 | paying positive instalments one after another leaves the same record as paying their total at once, status included |
| Lifecycle.ClosedStaysClosed | src/main/java/com/invoicemanagement/service/InvoiceServiceImpl.java:61-79 | a paid invoice stays paid under any payment and is left alone by the sweep; a void invoice is left alone by the sweep (only a payment can reopen it, to paid) |
| Lifecycle.Close | src/main/java/com/invoicemanagement/service/InvoiceServiceImpl.java:81-90 | a rolled-over invoice is no longer pending, only its status changes, and it is paid exactly when something was paid on it (void otherwise) |
| Lifecycle.SuccessorAmount | src/main/java/com/invoicemanagement/service/InvoiceServiceImpl.java:80-96 | the successor's amount: remaining plus the late fee when something was paid, the full amount plus the fee otherwise; whenever nothing negative was paid, both branches give the unpaid balance plus the late fee |
| Lifecycle.Overdue | src/main/java/com/invoicemanagement/service/InvoiceServiceImpl.java:79 | defines the sweep's guard: the invoice is pending and its due date plus the grace period is strictly before today |
| Lifecycle.Visit | src/main/java/com/invoicemanagement/service/InvoiceServiceImpl.java:79-98 | defines one iteration of the sweep's loop: for an overdue entry, create the successor, then save the entry closed; any other entry changes nothing (properties in VisitWellFormed and the Sweep lemmas) |
| Lifecycle.Sweep | src/main/java/com/invoicemanagement/service/InvoiceServiceImpl.java:78-100 | defines the whole sweep as Visit applied to the snapshot's entries in order; its meaning is given by SweepKeys, SweepOldRecords, SweepNewRecords and SweepSize |
| Lifecycle.OverdueInMembers | src/main/java/com/invoicemanagement/service/InvoiceServiceImpl.java:79 | the overdue entries of a snapshot are exactly its pending entries whose due date plus the grace period is before today |
| Lifecycle.SweepNextId | src/main/java/com/invoicemanagement/service/InvoiceServiceImpl.java:78-100 | the sweep calls createInvoice once per overdue entry of the snapshot |
| Lifecycle.SaveKeepsWellFormed | src/main/java/com/invoicemanagement/service/InvoiceServiceImpl.java:98 | saving back a stored record with a non-negative paid amount keeps the state well formed |
| Lifecycle.VisitWellFormed | src/main/java/com/invoicemanagement/service/InvoiceServiceImpl.java:79-98 | one iteration of the sweep on a stored entry keeps the state well formed |
| Lifecycle.SweepKeepsKeys | src/main/java/com/invoicemanagement/service/InvoiceServiceImpl.java:78-100 | the sweep never removes a record |
| Lifecycle.SweepWellFormed | src/main/java/com/invoicemanagement/service/InvoiceServiceImpl.java:78-100 | a sweep over entries of the store keeps the state well formed |
| Lifecycle.SweepKeys | src/main/java/com/invoicemanagement/service/InvoiceServiceImpl.java:78-100 | the keys after the sweep are the old keys plus exactly the ids handed out during the sweep |
| Lifecycle.SweepOldRecords | src/main/java/com/invoicemanagement/service/InvoiceServiceImpl.java:78-100 | every record stored before the sweep is still stored; an entry of the snapshot is closed if it was overdue and untouched otherwise; a record not in the snapshot is untouched |
| Lifecycle.SweepNewRecords | src/main/java/com/invoicemanagement/service/InvoiceServiceImpl.java:84-96 | the i-th overdue entry of the snapshot has its successor under the i-th id handed out: pending, nothing paid, balance plus fee, due today plus the grace period |
| Lifecycle.SweepSize | src/main/java/com/invoicemanagement/service/InvoiceServiceImpl.java:78-100 | the store grows by exactly the number of overdue entries in the snapshot |
| Lifecycle.QuietSweep | src/main/java/com/invoicemanagement/service/InvoiceServiceImpl.java:79 | a sweep over a snapshot with no overdue entry changes neither the store nor the supplier |
| Lifecycle.SweepEffect | src/main/java/com/invoicemanagement/service/InvoiceServiceImpl.java:78-100 | on a full snapshot, in whatever order, every record stored before is settled (closed if overdue, else unchanged) and none of them is overdue afterwards |
| Lifecycle.SecondSweepIsQuiet | src/main/java/com/invoicemanagement/service/InvoiceServiceImpl.java:78-100 | with a non-negative grace period, a second sweep on the same day changes nothing: closed invoices are no longer pending and successors are not yet overdue |
| Lifecycle.PaymentExamples | src/test/java/com/invoicemanagement/service/InvoiceServiceImplTest.java:132-162 | 1000/200 plus 800 gives 1000 paid; plus 400 gives 600 pending; overpayment is recorded; a void invoice paid up becomes paid |
| Lifecycle.OverdueExamples | src/test/java/com/invoicemanagement/service/InvoiceServiceImplTest.java:188-269 | with fee 100 and 10 days' grace, 1000/400 becomes paid with a 700 successor due today plus 10 and a paid invoice is skipped; 1000/0 becomes void with an 1100 successor; an invoice within its grace period or already paid is not overdue |
| Service.InvoiceService.constructor | src/main/java/com/invoicemanagement/service/InvoiceServiceImpl.java:26-27 | the engine starts on the given empty store with the supplier at its first id |
| Service.InvoiceService.CreateInvoice | src/main/java/com/invoicemanagement/service/InvoiceServiceImpl.java:30-41 | stores and returns a new pending record with nothing paid under the supplier's next id, and the state moves as Create says |
| Service.InvoiceService.GetAllInvoices | src/main/java/com/invoicemanagement/service/InvoiceServiceImpl.java:43-53 | returns every stored record exactly once, without modifying anything |
| Service.InvoiceService.AddPayment | src/main/java/com/invoicemanagement/service/InvoiceServiceImpl.java:55-71 | fails with NotFound, saving nothing, exactly when the id is not stored; otherwise the state moves as Pay says |
| Service.InvoiceService.SettleOne | src/main/java/com/invoicemanagement/service/InvoiceServiceImpl.java:79-99 | one iteration of the sweep's loop moves the state as Visit says: an overdue entry gets its successor created and is saved closed; any other entry changes nothing |
| Service.InvoiceService.ProcessOverdue | src/main/java/com/invoicemanagement/service/InvoiceServiceImpl.java:73-106 | the loop over the findAll snapshot moves the state as Sweep says; every record stored before is settled; the supplier and the store grow by the number of overdue entries |
| Service.CreateAndPay | src/test/java/com/invoicemanagement/service/InvoiceServiceImplTest.java:148-174 | on a new engine, a created 1000 invoice with 400 paid stays pending at 400, and a payment to an unknown id fails with NotFound |
| Service.CreatePaySweep | src/test/java/com/invoicemanagement/service/InvoiceServiceImplTest.java:188-213 | after that, a sweep with fee 100 and 10 days' grace leaves two invoices: the original closed as paid, and a 700 successor due today plus 10 |

## Left out

- Processing errors: `Wrap` models the catch blocks, but no modelled operation raises a fault other than a missing invoice. The in-memory map and the identity projection cannot fail. So no operation ever returns a processing error, and the absence of rollback after a sweep that fails midway is not modelled.
- Exception messages and logging. Only the error category is kept. The creation message that prints the amount twice is not modelled.
- `double` arithmetic and its rounding: amounts are integers.
- Calendar dates: day numbers with integer addition.
- Concurrency: the `ConcurrentHashMap` and races between concurrent payments. The store is single-threaded.
- Aliasing: `findById` and `findAll` return references to the stored objects, and the Java code mutates them (`setPaidAmount`, `setStatus`) before `save`. The model builds new values and saves them. The post-state is the same because ids in a snapshot are distinct, so no entry is visited twice.
- `findAll` returning a fresh copy holds by construction: a `seq` is a value, so later saves cannot change a list already returned. No separate member states it.
- The enumeration order of `findAll`: `FindAll` picks keys in an unspecified order. The ids of successors depend on that order; the outcome for existing records does not (`SweepEffect`).
- `UUID.randomUUID()` is replaced by a counter with injective decimal ids. `LocalDate.now()` is the `today` parameter.
- The HTTP controller, the exception handler, the OpenAPI configuration and the bean-validation machinery.
- Service.InvoiceService.AddPayment: requires a positive payment, which is the `@Positive` validation on the payment request. The service itself does not check the sign.
- Service.InvoiceService.constructor: requires an empty store, so that the counter-based supplier starts fresh. Random UUIDs need no such assumption.
