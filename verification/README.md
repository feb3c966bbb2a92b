# SynapseHealth order processing, modelled in Dafny

The job fetches a batch of medical-equipment orders and walks it once, in
fetch order. For each order it runs `OrdersService.ProcessOrder` and then
publishes the result with `UpdateOrder`. `ProcessOrder` walks the order's
items in order. It checks each item's `Status` against `"Delivered"` with
an ordinal, case-insensitive comparison. For a delivered item it first
raises a delivery alert, carrying the order id, the item description and
the item's `deliveryNotification` counter. It then adds one to that
counter. Processing is not idempotent: every pass over a delivered item
raises another alert and adds one more.

The model is functional. Orders and items are immutable records. Processing
returns the new order together with the alerts raised, in the order they
were raised. The job is a fold from a batch to a trace of `Process`,
`Alerted` and `Update` events, plus how the job ended.

| file | module | models |
|---|---|---|
| `model.dfy` | `Model` | typed `Order`, `Item` and `Alert` records; `Option`, `Result`, `Fault` |
| `int32.dfy` | `Int32` | C# `int` and its unchecked `+ 1` |
| `ascii.dfy` | `Ascii` | ordinal ignore-case comparison |
| `orders_service.dfy` | `OrdersService` | `IsItemDelivered`, `IncrementDeliveryNotification`, `ProcessOrder` |
| `program.dfy` | `Program` | the fetch → (process, update)* loop of the entry point |
| `fixture.dfy` | `Fixture` | the service's demonstration batch and its unit-test vectors |

Decisions the model makes:

- **Typed records.** The service handles orders as loosely typed JSON. An
  optional field of `Item` marks a value whose absence the service trips
  over. `status: None` means the `Status` key is absent. Reading it then
  throws (`OrdersService.cs:138`). A JSON null status reads as the empty
  string, so it decodes to `Some("")`. `deliveryNotification: None` means
  the counter is absent or null, and reading it throws (`OrdersService.cs:128`).
  A counter outside the 32-bit range also throws, because `Value<int>()`
  overflows. `Order.items: None` stands for a null item list, which is
  logged and leaves the order unchanged (`OrdersService.cs:78-81`).
- **Effect order.** The alert is raised before the increment. So the alert
  carries the pre-increment counter, which is `None` when it is absent. A
  delivered item with a missing counter raises its alert first and then
  faults. The counter of an item that is not delivered is never read.
- **Faults end the job.** An exception from `ProcessOrder` escapes the
  `foreach` in `Main` (`Program.cs:50-54`). That order is not published,
  later orders are not touched, and `Main` does not return. So `Exit` is
  `Returned(0)` or `Threw(fault)`.
- **The processor is a parameter.** `Main` reaches the service through
  `IOrdersService`. So `Program.Drive` takes the processing step as a
  function, and the job proper is `Drive(OrdersService.ProcessOrder, batch)`.
  The fetch is given as the batch.
- **Counter width.** The counter is a C# `int` and `+ 1` is unchecked, so
  `MaxValue` wraps to `MinValue` (`Int32.Wrap`). Each "+1" statement is
  proved with this wrap-around: it is exact below `MaxValue`.

## Model

| member | source | states |
|---|---|---|
| Int32.Increment | SynapseHealth/Services/OrdersService.cs:128 | unchecked `n + 1` on a 32-bit int stays in range, is exactly `n + 1` below `MaxValue`, and wraps to `MinValue` at `MaxValue` |
| Int32.Wrap | SynapseHealth/Services/OrdersService.cs:128 | the wrapped value is in the 32-bit range, congruent to the input modulo 2^32, and equal to the input when that is already in range |
| Int32.WrapAdd | SynapseHealth/Services/OrdersService.cs:128 | repeated unchecked additions equal one wrapped sum, so k increments add k modulo 2^32 |
| Ascii.EqualsIgnoreCaseFolds | SynapseHealth/Services/OrdersService.cs:138 | the character-by-character ordinal ignore-case comparison holds exactly when the two upper-cased strings are equal |
| OrdersService.IsItemDelivered | SynapseHealth/Services/OrdersService.cs:136-139 | an item without a status faults with `StatusMissing`; any item with a status gets a verdict |
| OrdersService.DeliveredFolded | SynapseHealth/Services/OrdersService.cs:136-139 | an item counts as delivered exactly when its status upper-cases to "DELIVERED" |
| OrdersService.DeliveredSpelling | SynapseHealth/Services/OrdersService.cs:136-139 | an item counts as delivered exactly when its status has 9 characters, each being the letter of "delivered" in either case, so "Not Delivered" and "Delivered " do not count |
| OrdersService.IncrementDeliveryNotification | SynapseHealth/Services/OrdersService.cs:126-129 | a missing counter faults with `CountMissing` and an out-of-range one with `CountOverflow`; otherwise description and status are kept, counter N becomes N+1 below `MaxValue`, and `MaxValue` wraps to `MinValue` |
| OrdersService.ProcessItems | SynapseHealth/Services/OrdersService.cs:85-92 | the item loop succeeds exactly when no item faults; it then keeps length and order, keeps each description and status, adds one to exactly the delivered items' counters, and raises one alert per delivered item in item order, each with the order id and the pre-increment counter; on a fault it stops at the first faulting item, after raising the alerts of the delivered items up to and including it |
| OrdersService.ProcessOrder | SynapseHealth/Services/OrdersService.cs:73-101 | a null item list or an empty one returns the order unchanged with no alert; otherwise the item-loop guarantees carry over to the written-back item list, and the order id is kept |
| OrdersService.DeliveredItemAlerted | SynapseHealth/Services/OrdersService.cs:87-90 | every delivered item's alert (order id, description, counter) is among the alerts raised |
| OrdersService.ProcessedStaysProcessable | SynapseHealth/Services/OrdersService.cs:85-92 | after a successful pass, every item can be processed again without a fault |
| OrdersService.StatusesKept | SynapseHealth/Services/OrdersService.cs:85-97 | a successful pass keeps the order id, the item count and every item's status |
| OrdersService.RepeatedProcessingCounts | SynapseHealth/Services/OrdersService.cs:85-97 | k passes over a well-formed order succeed, keep its shape, raise each delivered counter by exactly k (modulo 2^32), leave every other item alone, and leave the order well formed |
| OrdersService.RepeatedProcessingAlertSequence | SynapseHealth/Services/OrdersService.cs:85-92 | the alerts of k passes over a well-formed order are, pass after pass, the delivered items' alerts in item order, pass j carrying each counter j higher (modulo 2^32) than the order had it |
| OrdersService.RepeatedProcessingAlertsEachCount | SynapseHealth/Services/OrdersService.cs:85-92 | for every delivered item with counter n and every j < k, k passes raise that item's alert carrying n + j (modulo 2^32) |
| OrdersService.RepeatedProcessingAlerts | SynapseHealth/Services/OrdersService.cs:85-92 | k passes over a well-formed order raise k times as many alerts as it has delivered items |
| OrdersService.ProcessingNotIdempotent | SynapseHealth/Services/OrdersService.cs:85-97 | processing an order with a delivered item a second time changes the order again and raises another alert |
| Program.Drive | SynapseHealth/Program.cs:48-58 | whenever the job returns it returns 0; it returns exactly when every fetched order processes without a fault; an empty batch gives an empty trace |
| Program.DriveExit | SynapseHealth/Program.cs:50-58 | the job returns 0 when every fetched order processes without a fault, and otherwise ends with the fault of the first faulting order in fetch order |
| Program.DriveProcessesInFetchOrder | SynapseHealth/Program.cs:50-52 | the orders handed to processing are a prefix of the batch in fetch order: all of it when the job returns, otherwise up to and including the first faulting order |
| Program.DriveUpdatesProcessedOrders | SynapseHealth/Program.cs:50-54 | one update per order processed without a fault, in fetch order, and the i-th update carries exactly the processing result of the i-th fetched order |
| Program.DriveFollowsProtocol | SynapseHealth/Program.cs:50-54 | each order is handed over, then exactly the alerts processing it raises follow in order, then exactly its processed form is published before the next order is handed over; only a faulting order is left open, after all its alerts |
| Program.DriveAlerts | SynapseHealth/Program.cs:50-53 | the alerts of the run are each order's alerts, concatenated in fetch order, stopping after a faulting order |
| Program.CleanRunPublishes | SynapseHealth/Program.cs:50-58 | when every order processes to a known result, the job returns 0 and publishes exactly those results in fetch order |
| Program.JobReturnsIffWellFormed | SynapseHealth/Program.cs:50-58 | with the order service as the processor, the job returns 0 exactly when every item of every order has a status and every delivered item has a counter that fits in 32 bits |
| Program.RunBatch | SynapseHealth/Program.cs:48-58 | the loop over the batch produces the same trace and ending as the fold `Drive` |
| Fixture.UnitTestVectors | SynapseHealth.Tests/OrdersServiceTests.cs:29-47 | "Delivered" is delivered, "Not Delivered" is not, and a counter of 1 becomes 2, as the tests' assertions intend |
| Fixture.DemonstrationOrder11 | SynapseHealth/Services/OrdersService.cs:149-171 | in order o11 the delivered Wheelchair goes 1 → 2 with one alert carrying 1, and Test Strips ("Not delivered") keeps 0 |
| Fixture.DemonstrationOrder99 | SynapseHealth/Services/OrdersService.cs:173-195 | order o99 has nothing delivered, so it comes back unchanged with no alert |
| Fixture.DemonstrationOrder25 | SynapseHealth/Services/OrdersService.cs:197-219 | in order o25 Syringe goes 1 → 2 and Test Strips 0 → 1, with two alerts carrying 1 and 0 |
| Fixture.DemonstrationReturnsZero | SynapseHealth/Services/OrdersService.cs:145-222 | the job over the demonstration batch processes all three orders and returns 0 |
| Fixture.DemonstrationUpdates | SynapseHealth/Services/OrdersService.cs:145-222 | the three orders are published in fetch order, with only the three delivered counters raised |
| Fixture.DemonstrationAlerts | SynapseHealth/Services/OrdersService.cs:145-222 | the demonstration run raises exactly three alerts: o11 Wheelchair (1), o25 Syringe (1), o25 Test Strips (0) |

## Left out

- HTTP transport: fetching orders (`OrdersService.cs:50-66`), posting updates (`OrdersService.cs:107-120`) and posting alerts (`AlertService.cs:40-50`). These are network I/O. The fetch is given as the batch; alerts and updates are trace events. A failed fetch yields an empty batch, which the model covers as the empty-batch case.
- The mock HTTP handlers set up in the service constructors. They are test scaffolding.
- JSON parsing and serialisation (`JArray.Parse`, `ToObject`, `JObject.FromObject`), which belong to a foreign library. Orders are decoded into typed records at the boundary. An absent `Items` key makes the service's own `order["Items"]!.ToObject<JArray>()` (`OrdersService.cs:75`) throw a null-reference exception, because the `!` only silences the compiler; an `Items` value that is not an array makes the conversion throw. Both happen before the null check at `OrdersService.cs:78`, and the model has no such input. Whether a JSON null `Items` reaches the null branch depends on the library's conversion rules; the model follows the branch as written.
- An absent `OrderId` key: `order["OrderId"]!.ToString()` (`OrdersService.cs:89`) then throws a null-reference exception at the first delivered item, before its alert is sent, and the exception ends the job as any other fault does. `Order.orderId` is a plain string, so the model has no such input.
- The text of the alert message (`AlertService.cs:36-37`). Only its payload is modelled: order id, description and counter.
- Asynchronous, fire-and-forget alert delivery. Only the order "alert raised before the increment" is kept. Task scheduling and completion are not modelled.
- Dependency injection, configuration (`ConfigurationProvider.cs`, `Urls.cs`), Serilog set-up (`Program.cs:22-42`) and every log call.
- Compile-level quirks: `IAlertService.SendAlertAndUpdateOrder` has no implementation, and there are two differing `IOrdersService` declarations. They have no run-time behaviour.
- Ascii.EqualsIgnoreCaseFolds: the comparison folds only the ASCII letters a–z. .NET's ordinal ignore-case comparison upper-cases other characters too, through its own case table. Against the constant `"Delivered"` only a non-ASCII character that upper-cases onto D, E, L, I, V or R could matter; the model assumes there is none, and no such character is known to it.
- The unit test that checks `IsItemDelivered` builds its JSON as `{'Status': {status}}` (`OrdersServiceTests.cs:43`), which leaves the value unquoted and so does not parse. `Fixture.UnitTestVectors` states what the test's assertions intend, not that parse failure.
- The `Item` class of the service's own model is not part of this model. Its fields are taken from how the service and its demonstration data use them.
